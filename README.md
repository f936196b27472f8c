# Poppler annotation API: a verified model

This project models two parts of Poppler's public API.

The first is the annotation API of the Qt6 binding
(`shared/include/poppler/qt6/poppler-annotation.h`). It covers:

- the `Annotation` class with its fourteen concrete subclasses and
  `SignatureAnnotation`;
- the `Style` and `Popup` value containers;
- the enumerations the class declares;
- the read-only RichMedia tree;
- the FixedRotation rules. A FixedRotation annotation gets a compensating
  rotation at rendering time. Callers must also re-set its geometry in a fixed
  order.

The second is three flag enumerations of the GLib binding (`glib/poppler.h`):
`PopplerRenderAnnotsFlags`, `PopplerPrintFlags` and `PopplerFindFlags`.

Only the headers of these parts are modelled. Everything the model states
comes from a declaration, an enum value or a documentation comment. Where the
header leaves an initial value undocumented, the constructor picks it
arbitrarily (`:= *`), so no contract says anything about it.

Files and modules:

- `glib_flags.dfy`: the GLib flags as `bv32` constants, matching the C `int`
  enums bit for bit. The complement in `PRINT_MARKUP` sets bits 26-31, as the
  C expression does. It holds four modules:
  - `Bits`: generic facts about single bits;
  - `RenderAnnots`: the 26 render flags, their masks and the lemmas about them;
  - `PrintFlags`;
  - `FindFlags`.
- `qt_values.dfy` (`QtValues`): the Qt value types. They are stored and handed
  back, never computed with. Doubles are `real`s. The foreign objects an
  annotation owns (embedded files, sounds, movies, links, renditions, images)
  are opaque `Handle`s.
- `annotation_enums.dfy` (`AnnotationEnums`): the enums of `Annotation`:
  - `SubType` and its values;
  - `Flag` and the `Flags` mask, with the encode/decode round trip between a
    set of flags and its bit mask;
  - `LineStyle`, `LineEffect`, `RevScope`, `RevType` and
    `AdditionalActionType`.
- `rotation.dfy` (`RotationCompensation`): the compensating rotation. The
  rendering rotation and the page orientation are multiples of 90 degrees, so
  angles are counted in clockwise quarter turns. The page turns about any
  centre, and the compensation turns the annotation back exactly about the
  moved top-left corner of its boundary.
- `geometry_discipline.dfy` (`GeometryDiscipline`): the re-set rules as a
  state machine. It records which geometry is stale, meaning written in a
  coordinate system that no longer holds. It has lemmas about call sequences.
- `style_popup.dfy` (`StylePopup`): the `Style` and `Popup` classes. Each one
  holds its own value record, so copies are independent.
- `richmedia.dfy` (`RichMedia`): the RichMedia tree as datatypes. Every part
  that may be missing is an `Option`. It has no setters, because every setter
  of the tree is private to the library.
- `subtypes.dfy` (`Subtypes`): the properties each concrete class adds, as one
  payload variant per class. It also holds the class-local enums,
  `HighlightAnnotation::Quad` and `SigningResult`.
- `annotation.dfy` (`Annotations`): the `Annotation` class.
  - `subType` is a constant and `d` holds every property.
  - A ghost `geometry` holds the re-set state.
  - Every setter states the whole new `d` and the new re-set state. A setter of
    a subclass requires that subclass's payload.
  - Getters that return a property unchanged are reads of `d`.

## Model

| member | source | states |
|---|---|---|
| Bits.OrOnBit | glib/poppler.h:173-174 | a bit is set in `a | b` exactly when it is set in `a` or in `b`, so OR-ed render flags select both kinds |
| Bits.MaskOutOnBit | glib/poppler.h:175-176 | a single bit is set in `a & ~b` exactly when it is set in `a` and clear in `b` |
| Bits.XorFlipsBit | shared/include/poppler/qt6/poppler-annotation.h:160-165 | flipping a single bit with `^` sets it exactly when it was clear (used to toggle FixedRotation) |
| Bits.XorKeepsOtherBits | shared/include/poppler/qt6/poppler-annotation.h:166-168 | flipping bits with `^` leaves every bit outside them as it was |
| RenderAnnots.FlagIsSingleBit | glib/poppler.h:183-208 | every RENDER_ANNOTS_<type> is a non-zero power of two below bit 26 |
| RenderAnnots.FlagsDisjoint | glib/poppler.h:183-208 | two types share a bit if and only if they are the same type |
| RenderAnnots.NoAnnotsRendersNothing | glib/poppler.h:182 | RENDER_ANNOTS_NONE selects no type |
| RenderAnnots.AllTypesInBitOrder | glib/poppler.h:183-208 | the i-th type of the 26 is the one with shift i (1 << 0 up to 1 << 25) |
| RenderAnnots.CombineRenders | glib/poppler.h:170-174 | the OR of a list of type flags renders a type if and only if the type is in the list |
| RenderAnnots.CombinePrefix | glib/poppler.h:216-217 | the OR of the first n type flags is `(1 << n) - 1` |
| RenderAnnots.AllIsEveryType | glib/poppler.h:216-217 | ALL, built as `(RICHMEDIA << 1) - 1`, equals the OR of all 26 flags and sets none of bits 26-31 |
| RenderAnnots.AllRendersEveryType | glib/poppler.h:168 | ALL renders every annotation type |
| RenderAnnots.PrintMarkupExcludesExactly | glib/poppler.h:212-213 | PRINT_MARKUP renders a type if and only if it is not one of the eight listed types; its bits 26-31 are all set |
| RenderAnnots.PrintPresetsNested | glib/poppler.h:211-215 | PRINT_DOCUMENT is inside PRINT_STAMP, which is inside PRINT_MARKUP, each strictly; PRINT_ALL equals PRINT_MARKUP |
| RenderAnnots.AllButText | glib/poppler.h:175-176 | `ALL & ~TEXT` renders every type except TEXT, and not TEXT |
| PrintFlags.PrintFlagsShape | glib/poppler.h:234-240 | MARKUP_ANNOTS and STAMP_ANNOTS_ONLY are different non-zero bits, DOCUMENT has neither, PRINT_ALL equals MARKUP_ANNOTS |
| FindFlags.FindOptionsAreDistinctBits | glib/poppler.h:260-268 | each find option is a single bit, two options share a bit only when equal, DEFAULT has none |
| AnnotationEnums.SubTypeValue | shared/include/poppler/qt6/poppler-annotation.h:187-205 | every subtype tag has a value from 1 to 14 |
| AnnotationEnums.SubTypeFromValue | shared/include/poppler/qt6/poppler-annotation.h:187-205 | a value names a tag if and only if it is in 1..14, and then the tag has that value |
| AnnotationEnums.SubTypeValueRoundTrip | shared/include/poppler/qt6/poppler-annotation.h:187-205 | mapping a tag to its value and back gives the tag; different tags have different values |
| AnnotationEnums.FlagIsSingleBit | shared/include/poppler/qt6/poppler-annotation.h:216-224 | each of the eight flags is a single bit of the low byte |
| AnnotationEnums.FlagsDisjoint | shared/include/poppler/qt6/poppler-annotation.h:216-224 | two flags share a bit if and only if they are the same flag, so they can be OR-ed |
| AnnotationEnums.AllFlagsInBitOrder | shared/include/poppler/qt6/poppler-annotation.h:216-224 | Hidden up to External have the bits 1 << 0 up to 1 << 7, in order |
| AnnotationEnums.XorKeepsOtherFlags | shared/include/poppler/qt6/poppler-annotation.h:216-224 | flipping one flag with `^` leaves every other named flag as it was |
| AnnotationEnums.ToggleKeepsOtherFlags | shared/include/poppler/qt6/poppler-annotation.h:216-224 | toggling a flag changes that flag and agrees with the old value on every other named flag |
| AnnotationEnums.CombineHas | shared/include/poppler/qt6/poppler-annotation.h:207-226 | the OR of a list of flags has a flag if and only if the flag is in the list |
| AnnotationEnums.Chosen | shared/include/poppler/qt6/poppler-annotation.h:207-226 | the flags picked from a list are exactly those both in the list and in the chosen set |
| AnnotationEnums.EncodeHas | shared/include/poppler/qt6/poppler-annotation.h:207-226 | the Flags value built from a set of flags has a flag if and only if the flag is in the set |
| AnnotationEnums.DecodeEncode | shared/include/poppler/qt6/poppler-annotation.h:207-226 | OR-ing a set of flags together and reading back which flags are set gives the same set |
| AnnotationEnums.CombineKnownOnly | shared/include/poppler/qt6/poppler-annotation.h:207-226 | OR-ing named flags never sets a bit above the low byte |
| AnnotationEnums.EncodeDecode | shared/include/poppler/qt6/poppler-annotation.h:207-226 | reading the named flags of a mask and OR-ing them again keeps exactly the named flags the mask had and sets no other bit |
| AnnotationEnums.LineStyleValue | shared/include/poppler/qt6/poppler-annotation.h:228-235 | every line style has one of the values 1, 2, 4, 8, 16 |
| AnnotationEnums.LineEffectValue | shared/include/poppler/qt6/poppler-annotation.h:236-240 | every line effect has the value 1 or 2 |
| AnnotationEnums.RevScopeValue | shared/include/poppler/qt6/poppler-annotation.h:241-247 | every revision scope has one of the values 0, 1, 2, 4 |
| AnnotationEnums.RevTypeValue | shared/include/poppler/qt6/poppler-annotation.h:248-257 | every revision type has one of the values 1 up to 64, powers of two |
| AnnotationEnums.EnumValuesDistinct | shared/include/poppler/qt6/poppler-annotation.h:228-257 | within LineStyle, LineEffect, RevScope and RevType, different members have different values |
| RotationCompensation.QuarterTurn | shared/include/poppler/qt6/poppler-annotation.h:145-153 | a quarter turn of an offset keeps its length |
| RotationCompensation.TurnsAdd | shared/include/poppler/qt6/poppler-annotation.h:145-153 | turning m times and then n times is turning m + n times |
| RotationCompensation.TurnsModulo | shared/include/poppler/qt6/poppler-annotation.h:145-153 | four quarter turns are the identity, so only the count modulo four matters |
| RotationCompensation.TurnsFixOrigin | shared/include/poppler/qt6/poppler-annotation.h:152-153 | no number of turns moves the origin |
| RotationCompensation.RotateAbout | shared/include/poppler/qt6/poppler-annotation.h:152-153 | the rotation pivot stays where it is, and a rotation by whole turns moves nothing |
| RotationCompensation.TurnsNormalizedAdd | shared/include/poppler/qt6/poppler-annotation.h:145-153 | turning by a and then by b, each modulo four, is turning by a + b modulo four |
| RotationCompensation.TurnsLinear | shared/include/poppler/qt6/poppler-annotation.h:145-153 | a turn maps the difference of two offsets to the difference of their turns |
| RotationCompensation.RotateCompose | shared/include/poppler/qt6/poppler-annotation.h:145-153 | two rotations about one pivot are one rotation by the sum of their angles |
| RotationCompensation.PageTurnKeepsOffset | shared/include/poppler/qt6/poppler-annotation.h:145-151 | when the page turns about any centre, the offset between two of its points turns by the same angle |
| RotationCompensation.FixedRotationCompensation | shared/include/poppler/qt6/poppler-annotation.h:149-151 | the compensation -(rendering_rotation + page_orientation) is a quarter-turn count in [0, 4), and added to the context rotation gives whole turns |
| RotationCompensation.RenderToImageCompensation | shared/include/poppler/qt6/poppler-annotation.h:154-158 | renderToImage compensates only the page orientation: added to it, whole turns |
| RotationCompensation.FixedRotationUndoesContext | shared/include/poppler/qt6/poppler-annotation.h:143-153 | the page turns by rendering rotation plus orientation about any centre and carries the boundary's top-left corner along; the compensation, pivoted at that moved corner, puts every point of the annotation back at its original offset from the corner, so the annotation keeps its original orientation |
| RotationCompensation.RenderToImageKeepsRendering | shared/include/poppler/qt6/poppler-annotation.h:154-158 | under the same page turn about any centre, the renderToImage compensation leaves each point's offset from the moved corner turned by the rendering rotation alone, as if the page had its default orientation |
| GeometryDiscipline.RunAppend | shared/include/poppler/qt6/poppler-annotation.h:160-174 | running two call sequences in turn is running their concatenation |
| GeometryDiscipline.ToggleInvalidatesAll | shared/include/poppler/qt6/poppler-annotation.h:166-168 | toggling FixedRotation makes the boundary and every other geometry property stale; a flag change that keeps FixedRotation changes nothing |
| GeometryDiscipline.BoundaryWrite | shared/include/poppler/qt6/poppler-annotation.h:166-171 | writing the boundary makes it current; with FixedRotation set every other geometry property becomes stale, otherwise they stay as they were |
| GeometryDiscipline.BoundaryFirst | shared/include/poppler/qt6/poppler-annotation.h:166-168 | after a toggle, no call sequence that skips setBoundary makes the annotation consistent, however much other geometry it writes |
| GeometryDiscipline.GeometryWrites | shared/include/poppler/qt6/poppler-annotation.h:168 | one geometry write per listed property, in order |
| GeometryDiscipline.GeometryWritesClear | shared/include/poppler/qt6/poppler-annotation.h:166-171 | with a current boundary, writing geometry properties makes exactly those current and changes nothing else |
| GeometryDiscipline.ResetRestores | shared/include/poppler/qt6/poppler-annotation.h:166-171 | writing the boundary and then every geometry property restores a consistent annotation, from any state |
| GeometryDiscipline.GeometryOnlyStaysConsistent | shared/include/poppler/qt6/poppler-annotation.h:163-165 | a caller who never calls setFlags or setBoundary has nothing to re-set: from a consistent state, with FixedRotation set or not, geometry writes alone leave the re-set state exactly as it was, and consistent |
| GeometryDiscipline.NeverFixedStaysConsistent | shared/include/poppler/qt6/poppler-annotation.h:166-171 | both rules only apply around FixedRotation: an annotation that never has it set stays consistent whatever setFlags, setBoundary and geometry calls it gets |
| GeometryDiscipline.StepKeepsStaleWithin | shared/include/poppler/qt6/poppler-annotation.h:160-174 | only the annotation's own geometry properties ever become stale |
| Subtypes.DefaultQuad | shared/include/poppler/qt6/poppler-annotation.h:686-692 | a quad keeps its four points, has no caps and feather 0.1, which lies in [0, 1] |
| Subtypes.SigningResultValue | shared/include/poppler/qt6/poppler-annotation.h:795-805 | the outcomes are numbered 0..7 in order, and 0 is SigningSuccess alone |
| Subtypes.SigningResultsShape | shared/include/poppler/qt6/poppler-annotation.h:795-805 | exactly one outcome is a success; the seven failures are distinct and are all the other outcomes |
| Subtypes.MatchesOneTag | shared/include/poppler/qt6/poppler-annotation.h:410 | apart from a signature, the properties of a concrete class fit exactly one subType() tag |
| Subtypes.GeometryFieldsOfClasses | shared/include/poppler/qt6/poppler-annotation.h:531-533 | callout points, line points, quads, ink paths and link region points are geometry only of text, line, highlight, ink and link annotations; a link's region points are the ones it holds |
| StylePopup.Style.constructor | shared/include/poppler/qt6/poppler-annotation.h:325-352 | a new Style is black, opacity 1.0, width 1.0, Solid, corners 0.0 and 0.0, dash array [3], NoEffect, intensity 1.0 |
| StylePopup.Style.Copy | shared/include/poppler/qt6/poppler-annotation.h:326 | a copy has every property of the original |
| StylePopup.Style.Assign | shared/include/poppler/qt6/poppler-annotation.h:327 | assignment takes every property of the other style and leaves that style as it was |
| StylePopup.Style.SetColor | shared/include/poppler/qt6/poppler-annotation.h:331-332 | `color` takes the new value and no other property changes |
| StylePopup.Style.SetOpacity | shared/include/poppler/qt6/poppler-annotation.h:333-334 | `opacity` takes the new value and no other property changes |
| StylePopup.Style.SetWidth | shared/include/poppler/qt6/poppler-annotation.h:337-338 | `width` takes the new value and no other property changes |
| StylePopup.Style.SetLineStyle | shared/include/poppler/qt6/poppler-annotation.h:339-340 | `lineStyle` takes the new value and no other property changes |
| StylePopup.Style.SetXCorners | shared/include/poppler/qt6/poppler-annotation.h:341-342 | `xCorners` takes the new value and no other property changes |
| StylePopup.Style.SetYCorners | shared/include/poppler/qt6/poppler-annotation.h:343-344 | `yCorners` takes the new value and no other property changes |
| StylePopup.Style.SetDashArray | shared/include/poppler/qt6/poppler-annotation.h:345-346 | `dashArray` takes the new value and no other property changes |
| StylePopup.Style.SetLineEffect | shared/include/poppler/qt6/poppler-annotation.h:349-350 | `lineEffect` takes the new value and no other property changes |
| StylePopup.Style.SetEffectIntensity | shared/include/poppler/qt6/poppler-annotation.h:351-352 | `effectIntensity` takes the new value and no other property changes |
| StylePopup.CopyThenEdit | shared/include/poppler/qt6/poppler-annotation.h:326-328 | editing a copy of a style leaves the original unchanged |
| StylePopup.Popup.constructor | shared/include/poppler/qt6/poppler-annotation.h:368-387 | a new Popup has flags -1 (never initialised) and empty title, summary and text |
| StylePopup.Popup.Copy | shared/include/poppler/qt6/poppler-annotation.h:369 | a copy has every property of the original |
| StylePopup.Popup.Assign | shared/include/poppler/qt6/poppler-annotation.h:370 | assignment takes every property of the other popup and leaves that popup as it was |
| StylePopup.Popup.SetFlags | shared/include/poppler/qt6/poppler-annotation.h:373-375 | `flags` takes the new value and no other property changes |
| StylePopup.Popup.SetGeometry | shared/include/poppler/qt6/poppler-annotation.h:377-379 | `geometry` takes the new value and no other property changes |
| StylePopup.Popup.SetTitle | shared/include/poppler/qt6/poppler-annotation.h:382-383 | `title` takes the new value and no other property changes |
| StylePopup.Popup.SetSummary | shared/include/poppler/qt6/poppler-annotation.h:384-385 | `summary` takes the new value and no other property changes |
| StylePopup.Popup.SetText | shared/include/poppler/qt6/poppler-annotation.h:386-387 | `text` takes the new value and no other property changes |
| Annotations.NewData | shared/include/poppler/qt6/poppler-annotation.h:398-400 | a new annotation has revision scope Root and revision type None |
| Annotations.Annotation.Text | shared/include/poppler/qt6/poppler-annotation.h:492-526 | a new text annotation has subType AText, the given text type, black text and the "Note" icon; no boundary yet, nothing stale |
| Annotations.Annotation.Line | shared/include/poppler/qt6/poppler-annotation.h:582 | a new line annotation has subType ALine and the given line type |
| Annotations.Annotation.Geom | shared/include/poppler/qt6/poppler-annotation.h:633 | a new geometric annotation has subType AGeom |
| Annotations.Annotation.Highlight | shared/include/poppler/qt6/poppler-annotation.h:666 | a new highlight annotation has subType AHighlight |
| Annotations.Annotation.Stamp | shared/include/poppler/qt6/poppler-annotation.h:732-755 | a new stamp annotation has subType AStamp and the "Draft" icon |
| Annotations.Annotation.Signature | shared/include/poppler/qt6/poppler-annotation.h:807-850 | a new signature annotation has font sizes 10 and 20, red font and border colours, border width 1.5 and background (240, 240, 240) |
| Annotations.Annotation.Ink | shared/include/poppler/qt6/poppler-annotation.h:883 | a new ink annotation has subType AInk |
| Annotations.Annotation.Caret | shared/include/poppler/qt6/poppler-annotation.h:939 | a new caret annotation has subType ACaret |
| Annotations.Annotation.FromDocument | shared/include/poppler/qt6/poppler-annotation.h:105-109 | an annotation read from a page keeps its stored properties and tag, with its geometry current |
| Annotations.Annotation.SetAuthor | shared/include/poppler/qt6/poppler-annotation.h:259-266 | `author` takes the new value; no other property, the subtype and the re-set state are unchanged |
| Annotations.Annotation.SetContents | shared/include/poppler/qt6/poppler-annotation.h:268-269 | `contents` takes the new value; no other property, the subtype and the re-set state are unchanged |
| Annotations.Annotation.SetUniqueName | shared/include/poppler/qt6/poppler-annotation.h:271-280 | `uniqueName` takes the new value; no other property, the subtype and the re-set state are unchanged |
| Annotations.Annotation.SetModificationDate | shared/include/poppler/qt6/poppler-annotation.h:282-283 | `modificationDate` takes the new value; no other property, the subtype and the re-set state are unchanged |
| Annotations.Annotation.SetCreationDate | shared/include/poppler/qt6/poppler-annotation.h:285-286 | `creationDate` takes the new value; no other property, the subtype and the re-set state are unchanged |
| Annotations.Annotation.SetFlags | shared/include/poppler/qt6/poppler-annotation.h:288-299 | flags() then returns exactly the new flags and nothing else changes; the re-set state moves as GeometryDiscipline.Step says for setFlags |
| Annotations.Annotation.SetBoundary | shared/include/poppler/qt6/poppler-annotation.h:301-317 | boundary() then returns the new rectangle and nothing else changes; the re-set state moves as Step says for setBoundary |
| Annotations.Annotation.GetStyle | shared/include/poppler/qt6/poppler-annotation.h:359 | style() returns a new Style object with the annotation's style |
| Annotations.Annotation.SetStyle | shared/include/poppler/qt6/poppler-annotation.h:360 | the annotation takes a copy of the given style; nothing else changes |
| Annotations.Annotation.GetPopup | shared/include/poppler/qt6/poppler-annotation.h:394 | popup() returns a new Popup object with the annotation's popup |
| Annotations.Annotation.SetPopup | shared/include/poppler/qt6/poppler-annotation.h:395-396 | setPopup does nothing: every property is unchanged |
| Annotations.Annotation.SetTextIcon | shared/include/poppler/qt6/poppler-annotation.h:501-520 | `textIcon` takes the new value and no other property changes; the re-set state is unchanged |
| Annotations.Annotation.SetTextFont | shared/include/poppler/qt6/poppler-annotation.h:522-523 | `textFont` takes the new value and no other property changes; the re-set state is unchanged |
| Annotations.Annotation.SetTextColor | shared/include/poppler/qt6/poppler-annotation.h:524-526 | `textColor` takes the new value and no other property changes; the re-set state is unchanged |
| Annotations.Annotation.SetInplaceAlign | shared/include/poppler/qt6/poppler-annotation.h:528-529 | `inplaceAlign` takes the new value and no other property changes; the re-set state is unchanged |
| Annotations.Annotation.SetCalloutPoints | shared/include/poppler/qt6/poppler-annotation.h:532-533 | `calloutPoints` takes the new value and no other property changes; as a geometry write it moves the re-set state as Step says |
| Annotations.Annotation.SetInplaceIntent | shared/include/poppler/qt6/poppler-annotation.h:535-536 | `inplaceIntent` takes the new value and no other property changes; the re-set state is unchanged |
| Annotations.Annotation.SetLinePoints | shared/include/poppler/qt6/poppler-annotation.h:588-589 | `linePoints` takes the new value and no other property changes; as a geometry write it moves the re-set state as Step says |
| Annotations.Annotation.SetLineStartStyle | shared/include/poppler/qt6/poppler-annotation.h:591-592 | `lineStartStyle` takes the new value and no other property changes; the re-set state is unchanged |
| Annotations.Annotation.SetLineEndStyle | shared/include/poppler/qt6/poppler-annotation.h:594-595 | `lineEndStyle` takes the new value and no other property changes; the re-set state is unchanged |
| Annotations.Annotation.SetLineClosed | shared/include/poppler/qt6/poppler-annotation.h:597-598 | `lineClosed` takes the new value and no other property changes; the re-set state is unchanged |
| Annotations.Annotation.SetLineInnerColor | shared/include/poppler/qt6/poppler-annotation.h:600-601 | `lineInnerColor` takes the new value and no other property changes; the re-set state is unchanged |
| Annotations.Annotation.SetLineLeadingForwardPoint | shared/include/poppler/qt6/poppler-annotation.h:603-604 | `lineLeadingForwardPoint` takes the new value and no other property changes; the re-set state is unchanged |
| Annotations.Annotation.SetLineLeadingBackPoint | shared/include/poppler/qt6/poppler-annotation.h:606-607 | `lineLeadingBackPoint` takes the new value and no other property changes; the re-set state is unchanged |
| Annotations.Annotation.SetLineShowCaption | shared/include/poppler/qt6/poppler-annotation.h:609-610 | `lineShowCaption` takes the new value and no other property changes; the re-set state is unchanged |
| Annotations.Annotation.SetLineIntent | shared/include/poppler/qt6/poppler-annotation.h:612-613 | `lineIntent` takes the new value and no other property changes; the re-set state is unchanged |
| Annotations.Annotation.SetGeomType | shared/include/poppler/qt6/poppler-annotation.h:644-645 | `geomType` takes the new value and no other property changes; the re-set state is unchanged |
| Annotations.Annotation.SetGeomInnerColor | shared/include/poppler/qt6/poppler-annotation.h:647-648 | `geomInnerColor` takes the new value and no other property changes; the re-set state is unchanged |
| Annotations.Annotation.SetHighlightType | shared/include/poppler/qt6/poppler-annotation.h:694-704 | `highlightType` takes the new value and no other property changes; the re-set state is unchanged |
| Annotations.Annotation.SetHighlightQuads | shared/include/poppler/qt6/poppler-annotation.h:706-714 | `highlightQuads` takes the new value and no other property changes; as a geometry write it moves the re-set state as Step says |
| Annotations.Annotation.SetStampIconName | shared/include/poppler/qt6/poppler-annotation.h:736-762 | `stampIconName` takes the new value and no other property changes; the re-set state is unchanged |
| Annotations.Annotation.SetStampCustomImage | shared/include/poppler/qt6/poppler-annotation.h:764-769 | `stampCustomImage` takes the new value and no other property changes; the re-set state is unchanged |
| Annotations.Annotation.SetInkPaths | shared/include/poppler/qt6/poppler-annotation.h:887-888 | `inkPaths` takes the new value and no other property changes; as a geometry write it moves the re-set state as Step says |
| Annotations.Annotation.SetLinkDestination | shared/include/poppler/qt6/poppler-annotation.h:913-914 | `linkDestination` takes the given object, or none when a null pointer is passed (which clears it) and no other property changes; the re-set state is unchanged |
| Annotations.Annotation.SetLinkHighlightMode | shared/include/poppler/qt6/poppler-annotation.h:916-917 | `linkHighlightMode` takes the new value and no other property changes; the re-set state is unchanged |
| Annotations.Annotation.SetCaretSymbol | shared/include/poppler/qt6/poppler-annotation.h:952-953 | `caretSymbol` takes the new value and no other property changes; the re-set state is unchanged |
| Annotations.Annotation.SetFileIconName | shared/include/poppler/qt6/poppler-annotation.h:974-981 | `fileIconName` takes the new value and no other property changes; the re-set state is unchanged |
| Annotations.Annotation.SetEmbeddedFile | shared/include/poppler/qt6/poppler-annotation.h:983-992 | `embeddedFile` takes the given object, or none when a null pointer is passed (which clears it) and no other property changes; the re-set state is unchanged |
| Annotations.Annotation.SetSoundIconName | shared/include/poppler/qt6/poppler-annotation.h:1014-1021 | `soundIconName` takes the new value and no other property changes; the re-set state is unchanged |
| Annotations.Annotation.SetSound | shared/include/poppler/qt6/poppler-annotation.h:1023-1032 | `sound` takes the given object, or none when a null pointer is passed (which clears it) and no other property changes; the re-set state is unchanged |
| Annotations.Annotation.SetMovie | shared/include/poppler/qt6/poppler-annotation.h:1058-1063 | `movie` takes the given object, or none when a null pointer is passed (which clears it) and no other property changes; the re-set state is unchanged |
| Annotations.Annotation.SetMovieTitle | shared/include/poppler/qt6/poppler-annotation.h:1065-1072 | `movieTitle` takes the new value and no other property changes; the re-set state is unchanged |
| Annotations.Annotation.SetAction | shared/include/poppler/qt6/poppler-annotation.h:1100-1105 | `action` takes the given object, or none when a null pointer is passed (which clears it) and no other property changes; the re-set state is unchanged |
| Annotations.Annotation.SetScreenTitle | shared/include/poppler/qt6/poppler-annotation.h:1107-1115 | `screenTitle` takes the new value and no other property changes; the re-set state is unchanged |
| Annotations.Annotation.SetText | shared/include/poppler/qt6/poppler-annotation.h:811 | the signature's `text` takes the new value and no other property changes |
| Annotations.Annotation.SetLeftText | shared/include/poppler/qt6/poppler-annotation.h:812 | the signature's `leftText` takes the new value and no other property changes |
| Annotations.Annotation.SetFontSize | shared/include/poppler/qt6/poppler-annotation.h:814-818 | the signature's `fontSize` takes the new value and no other property changes |
| Annotations.Annotation.SetLeftFontSize | shared/include/poppler/qt6/poppler-annotation.h:820-824 | the signature's `leftFontSize` takes the new value and no other property changes |
| Annotations.Annotation.SetFontColor | shared/include/poppler/qt6/poppler-annotation.h:826-830 | the signature's `fontColor` takes the new value and no other property changes |
| Annotations.Annotation.SetBorderColor | shared/include/poppler/qt6/poppler-annotation.h:832-836 | the signature's `borderColor` takes the new value and no other property changes |
| Annotations.Annotation.SetBorderWidth | shared/include/poppler/qt6/poppler-annotation.h:838-844 | the signature's `borderWidth` takes the new value and no other property changes |
| Annotations.Annotation.SetBackgroundColor | shared/include/poppler/qt6/poppler-annotation.h:846-850 | the signature's `backgroundColor` takes the new value and no other property changes |
| Annotations.Annotation.SetImagePath | shared/include/poppler/qt6/poppler-annotation.h:852-853 | the signature's `imagePath` takes the new value and no other property changes |
| Annotations.Annotation.SetFieldPartialName | shared/include/poppler/qt6/poppler-annotation.h:855-856 | the signature's `fieldPartialName` takes the new value and no other property changes |
| Annotations.Annotation.CalloutPoint | shared/include/poppler/qt6/poppler-annotation.h:531 | calloutPoint(id) is the id-th callout point when id is in range, and nothing otherwise |
| Annotations.Annotation.SetLinkRegionPoint | shared/include/poppler/qt6/poppler-annotation.h:920 | the region point `id` takes the new value, the other points stay; as a geometry write it moves the re-set state as Step says |
| Annotations.Annotation.LinkRegionPoint | shared/include/poppler/qt6/poppler-annotation.h:919 | linkRegionPoint(id) is the point stored for id, and nothing when there is none |
| Annotations.Annotation.AdditionalAction | shared/include/poppler/qt6/poppler-annotation.h:1117-1121 | additionalAction(type) of a screen or widget annotation is the action defined for that event, and nothing when none is |
| Annotations.ToggleFixedRotation | shared/include/poppler/qt6/poppler-annotation.h:160-168 | the new flags are the old ones with only the FixedRotation bit flipped (so every other flag is kept); after setting the boundary and then the callout points again, the text annotation is consistent, with unchanged callout points and nothing else changed |

## Left out

- `AnnotationAppearance` and `annotationAppearance()`/`setAnnotationAppearance()` wrap an object the header does not show, so they are not modelled.
- `SignatureAnnotation::sign` is not modelled, apart from its result enum: key lookup, passphrases, cryptography and file writing happen in code the header does not show. `lastSigningErrorDetails()` is free text and is also not modelled.
- Different `Annotation` objects may stand for one underlying annotation. This aliasing lives in the document layer and is not modelled: each object here owns its properties.
- Page `addAnnotation`/`removeAnnotation`, rendering and saving through `PDFConverter` are not part of this model.
- `revisions()` returns new `Annotation` objects built from the document. The model keeps only opaque references to them, which callers cannot change.
- The transformation behind the FixedRotation rules is hidden in the library. The model checks that callers follow the rules, not the coordinates the library stores.
- GeometryDiscipline.AfterSetFlags and GeometryDiscipline.AfterSetBoundary read the rules conservatively: a toggle, or a boundary write under FixedRotation, marks every geometry property of the class stale, including ones never written. A fresh text annotation given FixedRotation and a boundary is therefore not consistent until its callout points are set, although the header only asks callers to set such properties "again".
- Annotations.Annotation.Signature: the header gives `SignatureAnnotation` no `SubType` tag, so its `subType()` is left unspecified.
- Annotations.Annotation.CalloutPoint: the header does not say what an out-of-range `id` returns. The model returns no point in that case.
- Annotations.Annotation.LinkRegionPoint: the valid `id` range is not visible. The region holds the points that were stored, and lookups outside it return no point.
- Annotations.Annotation.SetStampCustomImage: the model stores the image and leaves the icon name alone. The header does not say whether the icon name changes.
- Annotations.Annotation.Text and Annotations.Annotation.Stamp: the icon defaults, "Note" and "Draft", are taken from the lists of standard icon names, which call them the default.
- StylePopup.Popup.constructor: the geometry has no documented default. The change of flags from -1 to 0 once the window is shown happens in hidden code and is not modelled.
- Opacity, widths, font sizes and coordinates are `real`s that are only stored and compared, so no floating-point rounding is modelled.
- Qt values (`QColor`, `QFont`, `QDateTime`, `QImage`) are plain records or opaque handles.
- The other GLib enums and opaque struct typedefs are labels with no relations between them, so they are not modelled.
- `poppler-version.h` and `poppler-export.h` are not part of this model.
- AnnotationEnums.EncodeDecode: it states, flag by flag, that decoding and re-encoding keeps exactly the named flags a mask has, and that the result has no other bit. It does not state this as one equation with `flags & 0xFF`, which means the same thing.
