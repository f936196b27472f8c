// The enumerations declared by the Qt6 Annotation base class
// (shared/include/poppler/qt6/poppler-annotation.h): the subtype tags, the
// annotation flags and their bitmask, line style and effect, and the revision
// scope and type.

module AnnotationEnums {

  import Bits
  import opened QtValues

  /** Annotation::SubType: one tag per concrete annotation class. */
  datatype SubType =
    | AText | ALine | AGeom | AHighlight | AStamp | AInk | ALink | ACaret
    | AFileAttachment | ASound | AMovie | AScreen | AWidget | ARichMedia

  /** The integer value of each tag; other programs rely on these numbers. */
  function SubTypeValue(t: SubType): (v: int)
    ensures 1 <= v <= 14
  {
    match t
    case AText => 1
    case ALine => 2
    case AGeom => 3
    case AHighlight => 4
    case AStamp => 5
    case AInk => 6
    case ALink => 7
    case ACaret => 8
    case AFileAttachment => 9
    case ASound => 10
    case AMovie => 11
    case AScreen => 12
    case AWidget => 13
    case ARichMedia => 14
  }

  /** The tag with value `v`, if there is one. */
  function SubTypeFromValue(v: int): (r: Option<SubType>)
    ensures r.Some? <==> 1 <= v <= 14
    ensures r.Some? ==> SubTypeValue(r.value) == v
  {
    if v == 1 then Some(AText)
    else if v == 2 then Some(ALine)
    else if v == 3 then Some(AGeom)
    else if v == 4 then Some(AHighlight)
    else if v == 5 then Some(AStamp)
    else if v == 6 then Some(AInk)
    else if v == 7 then Some(ALink)
    else if v == 8 then Some(ACaret)
    else if v == 9 then Some(AFileAttachment)
    else if v == 10 then Some(ASound)
    else if v == 11 then Some(AMovie)
    else if v == 12 then Some(AScreen)
    else if v == 13 then Some(AWidget)
    else if v == 14 then Some(ARichMedia)
    else Option.None
  }

  /** Different tags have different values, and each value names its tag back. */
  lemma SubTypeValueRoundTrip(s: SubType, t: SubType)
    ensures SubTypeFromValue(SubTypeValue(t)) == Some(t)
    ensures SubTypeValue(s) == SubTypeValue(t) ==> s == t
  {
  }

  /** Annotation::Flag */
  datatype Flag =
    | Hidden | FixedSize | FixedRotation | DenyPrint | DenyWrite | DenyDelete
    | ToggleHidingOnMouse | External

  /** The flags by increasing bit. */
  const AllFlags: seq<Flag> :=
    [Hidden, FixedSize, FixedRotation, DenyPrint, DenyWrite, DenyDelete, ToggleHidingOnMouse, External]

  /** The position of each flag's bit: the enum declares Hidden as 0x0001,
      FixedSize as 0x0002, and so on up to External as 0x0080. */
  function BitIndex(f: Flag): (n: bv32)
    ensures n < 8
  {
    match f
    case Hidden => 0
    case FixedSize => 1
    case FixedRotation => 2
    case DenyPrint => 3
    case DenyWrite => 4
    case DenyDelete => 5
    case ToggleHidingOnMouse => 6
    case External => 7
  }

  /** The bit of each flag. */
  function Bit(f: Flag): bv32 {
    (1 as bv32) << BitIndex(f)
  }

  /** The eight low bits, where the named flags live. */
  const KnownBits: bv32 := 0xFF

  /** `flags` has flag `f` set. */
  predicate HasFlag(flags: bv32, f: Flag) {
    flags & Bit(f) != 0
  }

  /** Every flag is a single bit of the low byte. */
  lemma FlagIsSingleBit(f: Flag)
    ensures Bit(f) != 0 && Bit(f) & (Bit(f) - 1) == 0
    ensures Bit(f) & !KnownBits == 0
  {
  }

  /** Different flags are different bits, so any combination can be OR'd together. */
  lemma FlagsDisjoint(f: Flag, g: Flag)
    ensures f != g <==> Bit(f) & Bit(g) == 0
  {
    assert f != g ==> BitIndex(f) != BitIndex(g);
  }

  /** Flipping flag `g` with `^` leaves every other flag as it was. */
  lemma XorKeepsOtherFlags(flags: bv32, g: Flag, f: Flag)
    requires f != g
    ensures HasFlag(flags ^ Bit(g), f) == HasFlag(flags, f)
  {
    FlagsDisjoint(g, f);
    Bits.XorKeepsOtherBits(flags, Bit(g), Bit(f));
  }

  /** `flags` with flag `g` flipped, as `flags ^ g` does it. */
  function Toggle(flags: bv32, g: Flag): bv32 {
    flags ^ Bit(g)
  }

  /** `x` and `y` agree on every flag other than `g`. */
  predicate AgreeExcept(x: bv32, y: bv32, g: Flag) {
    forall f :: f != g ==> HasFlag(x, f) == HasFlag(y, f)
  }

  /** Toggling flag `g` changes it and keeps every other flag. */
  lemma ToggleKeepsOtherFlags(flags: bv32, g: Flag)
    ensures HasFlag(Toggle(flags, g), g) != HasFlag(flags, g)
    ensures AgreeExcept(Toggle(flags, g), flags, g)
  {
    FlagIsSingleBit(g);
    Bits.XorFlipsBit(flags, Bit(g));
    forall f | f != g
      ensures HasFlag(flags ^ Bit(g), f) == HasFlag(flags, f)
    {
      XorKeepsOtherFlags(flags, g, f);
    }
  }

  /** AllFlags lists the flags by bit: the i-th has bit `1 << i`. */
  lemma AllFlagsInBitOrder(i: bv32)
    requires i < 8
    ensures Bit(AllFlags[i]) == 1 << i
  {
  }

  /** AllFlags lists every flag. */
  lemma InAllFlags(f: Flag)
    ensures f in AllFlags
  {
    match f
    case Hidden => assert AllFlags[0] == f;
    case FixedSize => assert AllFlags[1] == f;
    case FixedRotation => assert AllFlags[2] == f;
    case DenyPrint => assert AllFlags[3] == f;
    case DenyWrite => assert AllFlags[4] == f;
    case DenyDelete => assert AllFlags[5] == f;
    case ToggleHidingOnMouse => assert AllFlags[6] == f;
    case External => assert AllFlags[7] == f;
  }

  /** The bitwise OR of the flags of `fs` (`Hidden | DenyPrint`, say). */
  function Combine(fs: seq<Flag>): bv32 {
    if fs == [] then 0 else Combine(fs[..|fs| - 1]) | Bit(fs[|fs| - 1])
  }

  /** A combined value has exactly the listed flags. */
  lemma {:induction false} CombineHas(fs: seq<Flag>, f: Flag)
    ensures HasFlag(Combine(fs), f) <==> f in fs
  {
    if fs != [] {
      var init, last := fs[..|fs| - 1], fs[|fs| - 1];
      CombineHas(init, f);
      Bits.OrOnBit(Combine(init), Bit(last), Bit(f));
      FlagsDisjoint(last, f);
      assert fs == init + [last];
    }
  }

  /** A combined value sets no bit outside the low byte. */
  lemma {:induction false} CombineKnownOnly(fs: seq<Flag>)
    ensures Combine(fs) & !KnownBits == 0
  {
    if fs != [] {
      CombineKnownOnly(fs[..|fs| - 1]);
      FlagIsSingleBit(fs[|fs| - 1]);
      Bits.OrOutside(Combine(fs[..|fs| - 1]), Bit(fs[|fs| - 1]), !KnownBits);
    }
  }

  /** The flags of `fs` that are in `s`, in the order of `fs`. */
  function Chosen(s: set<Flag>, fs: seq<Flag>): (r: seq<Flag>)
    ensures forall f :: f in r <==> f in s && f in fs
  {
    if fs == [] then []
    else (if fs[0] in s then [fs[0]] else []) + Chosen(s, fs[1..])
  }

  /** The `Flags` value holding exactly the flags of `s`. */
  function Encode(s: set<Flag>): bv32 {
    Combine(Chosen(s, AllFlags))
  }

  /** The named flags a `Flags` value holds. */
  function Decode(flags: bv32): set<Flag> {
    set f | f in AllFlags && HasFlag(flags, f)
  }

  /** An encoded set has exactly the flags of the set. */
  lemma EncodeHas(s: set<Flag>, f: Flag)
    ensures HasFlag(Encode(s), f) <==> f in s
  {
    CombineHas(Chosen(s, AllFlags), f);
    InAllFlags(f);
  }

  /** OR-ing a set of flags together and testing each flag gives the set back. */
  lemma DecodeEncode(s: set<Flag>)
    ensures Decode(Encode(s)) == s
  {
    forall f ensures f in Decode(Encode(s)) <==> f in s {
      EncodeHas(s, f);
      InAllFlags(f);
    }
  }

  /** Decoding and re-encoding keeps every named flag and sets no bit that
      no flag names. */
  lemma EncodeDecode(flags: bv32, f: Flag)
    ensures HasFlag(Encode(Decode(flags)), f) <==> HasFlag(flags, f)
    ensures Encode(Decode(flags)) & !KnownBits == 0
  {
    EncodeHas(Decode(flags), f);
    CombineKnownOnly(Chosen(Decode(flags), AllFlags));
    assert f in AllFlags by { InAllFlags(f); }
  }

  /** Annotation::LineStyle */
  datatype LineStyle = Solid | Dashed | Beveled | Inset | Underline

  function LineStyleValue(s: LineStyle): (v: int)
    ensures v in {1, 2, 4, 8, 16}
  {
    match s
    case Solid => 1
    case Dashed => 2
    case Beveled => 4
    case Inset => 8
    case Underline => 16
  }

  /** Annotation::LineEffect */
  datatype LineEffect = NoEffect | Cloudy

  function LineEffectValue(e: LineEffect): (v: int)
    ensures v in {1, 2}
  {
    match e
    case NoEffect => 1
    case Cloudy => 2
  }

  /** Annotation::RevScope: where a node sits in the reply/revision graph. */
  datatype RevScope = Root | Reply | Group | Delete

  function RevScopeValue(s: RevScope): (v: int)
    ensures v in {0, 1, 2, 4}
  {
    match s
    case Root => 0
    case Reply => 1
    case Group => 2
    case Delete => 4
  }

  /** Annotation::RevType: the review state of a revision. */
  datatype RevType = None | Marked | Unmarked | Accepted | Rejected | Cancelled | Completed

  function RevTypeValue(t: RevType): (v: int)
    ensures v in {1, 2, 4, 8, 16, 32, 64}
  {
    match t
    case None => 1
    case Marked => 2
    case Unmarked => 4
    case Accepted => 8
    case Rejected => 16
    case Cancelled => 32
    case Completed => 64
  }

  /** Each of these enumerations gives different members different values. */
  lemma EnumValuesDistinct(l: LineStyle, l': LineStyle, e: LineEffect, e': LineEffect,
                           a: RevScope, b: RevScope, s: RevType, t: RevType)
    ensures LineStyleValue(l) == LineStyleValue(l') ==> l == l'
    ensures LineEffectValue(e) == LineEffectValue(e') ==> e == e'
    ensures RevScopeValue(a) == RevScopeValue(b) ==> a == b
    ensures RevTypeValue(s) == RevTypeValue(t) ==> s == t
  {
  }

  /** Annotation::AdditionalActionType: the events of an annotation's 'AA'
      dictionary, looked up by screen and widget annotations. */
  datatype AdditionalActionType =
    | CursorEnteringAction | CursorLeavingAction | MousePressedAction | MouseReleasedAction
    | FocusInAction | FocusOutAction | PageOpeningAction | PageClosingAction
    | PageVisibleAction | PageInvisibleAction
}
