// The Qt6 Annotation class and its concrete subclasses
// (shared/include/poppler/qt6/poppler-annotation.h). One Dafny class stands for
// the whole hierarchy: the common properties live in the record `d`, the
// properties a concrete class adds live in its payload variant, and subType()
// is a constant fixed at construction. A setter that only exists on one
// subclass requires the payload of that subclass. The ghost `geometry` tracks
// the FixedRotation re-set rules of the GeometryDiscipline module.

module Annotations {

  import opened QtValues
  import AnnotationEnums
  import GeometryDiscipline
  import Subtypes
  import StylePopup
  import RichMedia
  import Bits

  /** The properties every annotation has. */
  datatype AnnotationData = AnnotationData(
    author: string,
    contents: string,
    uniqueName: string,
    modificationDate: DateTime,
    creationDate: DateTime,
    flags: bv32,
    boundary: Rect,
    style: StylePopup.StyleData,
    popup: StylePopup.PopupData,
    revisionScope: AnnotationEnums.RevScope,
    revisionType: AnnotationEnums.RevType,
    revisions: seq<Handle>,
    payload: Subtypes.Payload)

  /** Common properties for a new annotation with `payload`: the revision scope
      and type have their documented defaults, everything else is unspecified. */
  method NewData(payload: Subtypes.Payload) returns (data: AnnotationData)
    ensures data.payload == payload
    ensures data.revisionScope == AnnotationEnums.Root
    ensures data.revisionType == AnnotationEnums.RevType.None
  {
    data := *;
    data := data.(revisionScope := AnnotationEnums.Root, revisionType := AnnotationEnums.RevType.None, payload := payload);
  }

  class Annotation {
    /** subType(): fixed by the concrete class. */
    const subType: AnnotationEnums.SubType
    var d: AnnotationData
    ghost var geometry: GeometryDiscipline.GeometryState

    /** The geometry properties the FixedRotation rules cover. */
    function Fields(): set<GeometryDiscipline.GeometryField>
      reads this
    {
      Subtypes.GeometryFieldsOf(d.payload)
    }

    /** The flags and the re-set state, as the GeometryDiscipline machine sees them. */
    ghost function Machine(): GeometryDiscipline.Machine
      reads this
    {
      GeometryDiscipline.Machine(d.flags, geometry)
    }

    /** The payload belongs to the class subType() names, and only the
        annotation's own geometry properties can be stale. */
    ghost predicate Valid()
      reads this
    {
      Subtypes.Matches(subType, d.payload) && geometry.staleFields <= Fields()
    }

    /** TextAnnotation(TextType): the text colour defaults to black and the
        icon to "Note". */
    constructor Text(textType: Subtypes.TextType)
      ensures Valid() && subType == AnnotationEnums.AText && geometry == GeometryDiscipline.Fresh
      ensures d.revisionScope == AnnotationEnums.Root && d.revisionType == AnnotationEnums.RevType.None
      ensures d.payload.TextData? && d.payload.textType == textType
      ensures d.payload.textColor == Black && d.payload.textIcon == "Note"
    {
      var font: Font := *;
      var align: Subtypes.InplaceAlignPosition := *;
      var callout: seq<Point> := *;
      var intent: Subtypes.InplaceIntent := *;
      var data := NewData(Subtypes.TextData(textType, "Note", font, Black, align, callout, intent));
      d := data;
      subType := AnnotationEnums.AText;
      geometry := GeometryDiscipline.Fresh;
    }

    /** LineAnnotation(LineType) */
    constructor Line(lineType: Subtypes.LineType)
      ensures Valid() && subType == AnnotationEnums.ALine && geometry == GeometryDiscipline.Fresh
      ensures d.revisionScope == AnnotationEnums.Root && d.revisionType == AnnotationEnums.RevType.None
      ensures d.payload.LineData? && d.payload.lineType == lineType
    {
      var points: seq<Point> := *;
      var startStyle: Subtypes.TermStyle := *;
      var endStyle: Subtypes.TermStyle := *;
      var closed: bool := *;
      var inner: Color := *;
      var forward: real := *;
      var back: real := *;
      var caption: bool := *;
      var intent: Subtypes.LineIntent := *;
      var data := NewData(Subtypes.LineData(lineType, points, startStyle, endStyle, closed, inner, forward, back, caption, intent));
      d := data;
      subType := AnnotationEnums.ALine;
      geometry := GeometryDiscipline.Fresh;
    }

    /** GeomAnnotation() */
    constructor Geom()
      ensures Valid() && subType == AnnotationEnums.AGeom && geometry == GeometryDiscipline.Fresh
      ensures d.revisionScope == AnnotationEnums.Root && d.revisionType == AnnotationEnums.RevType.None
      ensures d.payload.GeomData?
    {
      var kind: Subtypes.GeomType := *;
      var inner: Color := *;
      var data := NewData(Subtypes.GeomData(kind, inner));
      d := data;
      subType := AnnotationEnums.AGeom;
      geometry := GeometryDiscipline.Fresh;
    }

    /** HighlightAnnotation() */
    constructor Highlight()
      ensures Valid() && subType == AnnotationEnums.AHighlight && geometry == GeometryDiscipline.Fresh
      ensures d.revisionScope == AnnotationEnums.Root && d.revisionType == AnnotationEnums.RevType.None
      ensures d.payload.HighlightData?
    {
      var kind: Subtypes.HighlightType := *;
      var quads: seq<Subtypes.Quad> := *;
      var data := NewData(Subtypes.HighlightData(kind, quads));
      d := data;
      subType := AnnotationEnums.AHighlight;
      geometry := GeometryDiscipline.Fresh;
    }

    /** StampAnnotation(): the icon defaults to "Draft". */
    constructor Stamp()
      ensures Valid() && subType == AnnotationEnums.AStamp && geometry == GeometryDiscipline.Fresh
      ensures d.revisionScope == AnnotationEnums.Root && d.revisionType == AnnotationEnums.RevType.None
      ensures d.payload.StampData? && d.payload.stampIconName == "Draft"
    {
      var image: Option<Handle> := *;
      var data := NewData(Subtypes.StampData("Draft", image));
      d := data;
      subType := AnnotationEnums.AStamp;
      geometry := GeometryDiscipline.Fresh;
    }

    /** SignatureAnnotation(): font sizes 10 and 20, red font and border, a
        border 1.5 points wide, a light grey background. The header gives the
        class no tag of its own, so subType() is left unspecified. */
    constructor Signature()
      ensures Valid() && geometry == GeometryDiscipline.Fresh
      ensures d.revisionScope == AnnotationEnums.Root && d.revisionType == AnnotationEnums.RevType.None
      ensures d.payload.SignatureData?
      ensures var s := d.payload.signature;
        s.fontSize == 10.0 && s.leftFontSize == 20.0
        && s.fontColor == Red && s.borderColor == Red
        && s.borderWidth == 1.5 && s.backgroundColor == Rgba(240, 240, 240, 255)
    {
      var text: string := *;
      var leftText: string := *;
      var imagePath: string := *;
      var fieldName: string := *;
      var tag: AnnotationEnums.SubType := *;
      var s := Subtypes.SignatureProperties(text, leftText, 10.0, 20.0, Red, Red, 1.5, Rgba(240, 240, 240, 255), imagePath, fieldName);
      var data := NewData(Subtypes.SignatureData(s));
      d := data;
      subType := tag;
      geometry := GeometryDiscipline.Fresh;
    }

    /** InkAnnotation() */
    constructor Ink()
      ensures Valid() && subType == AnnotationEnums.AInk && geometry == GeometryDiscipline.Fresh
      ensures d.revisionScope == AnnotationEnums.Root && d.revisionType == AnnotationEnums.RevType.None
      ensures d.payload.InkData?
    {
      var paths: seq<seq<Point>> := *;
      var data := NewData(Subtypes.InkData(paths));
      d := data;
      subType := AnnotationEnums.AInk;
      geometry := GeometryDiscipline.Fresh;
    }

    /** CaretAnnotation() */
    constructor Caret()
      ensures Valid() && subType == AnnotationEnums.ACaret && geometry == GeometryDiscipline.Fresh
      ensures d.revisionScope == AnnotationEnums.Root && d.revisionType == AnnotationEnums.RevType.None
      ensures d.payload.CaretData?
    {
      var symbol: Subtypes.CaretSymbol := *;
      var data := NewData(Subtypes.CaretData(symbol));
      d := data;
      subType := AnnotationEnums.ACaret;
      geometry := GeometryDiscipline.Fresh;
    }

    /** An annotation read from a page. Link, file attachment, sound, movie,
        screen, widget and rich media annotations only come about this way. */
    constructor FromDocument(tag: AnnotationEnums.SubType, data: AnnotationData)
      requires Subtypes.Matches(tag, data.payload)
      ensures Valid() && subType == tag && d == data && geometry == GeometryDiscipline.Loaded
    {
      d := data;
      subType := tag;
      geometry := GeometryDiscipline.Loaded;
    }

    method SetAuthor(author: string)
      requires Valid()
      modifies this
      ensures Valid()
      ensures d == old(d).(author := author)
      ensures geometry == old(geometry)
    {
      d := d.(author := author);
    }

    method SetContents(contents: string)
      requires Valid()
      modifies this
      ensures Valid()
      ensures d == old(d).(contents := contents)
      ensures geometry == old(geometry)
    {
      d := d.(contents := contents);
    }

    /** No check of the new name is done. */
    method SetUniqueName(uniqueName: string)
      requires Valid()
      modifies this
      ensures Valid()
      ensures d == old(d).(uniqueName := uniqueName)
      ensures geometry == old(geometry)
    {
      d := d.(uniqueName := uniqueName);
    }

    method SetModificationDate(date: DateTime)
      requires Valid()
      modifies this
      ensures Valid()
      ensures d == old(d).(modificationDate := date)
      ensures geometry == old(geometry)
    {
      d := d.(modificationDate := date);
    }

    method SetCreationDate(date: DateTime)
      requires Valid()
      modifies this
      ensures Valid()
      ensures d == old(d).(creationDate := date)
      ensures geometry == old(geometry)
    {
      d := d.(creationDate := date);
    }

    /** setFlags: the flags are replaced by `flags` and nothing else changes;
        toggling FixedRotation makes all geometry stale. */
    method SetFlags(flags: bv32)
      requires Valid()
      modifies this
      ensures Valid()
      ensures d == old(d).(flags := flags)
      ensures Machine() == GeometryDiscipline.Step(old(Machine()), Fields(), GeometryDiscipline.SetFlags(flags))
    {
      geometry := GeometryDiscipline.AfterSetFlags(geometry, d.flags, flags, Fields());
      d := d.(flags := flags);
    }

    /** setBoundary: on a FixedRotation annotation this makes all other
        geometry stale. */
    method SetBoundary(boundary: Rect)
      requires Valid()
      modifies this
      ensures Valid()
      ensures d == old(d).(boundary := boundary)
      ensures Machine() == GeometryDiscipline.Step(old(Machine()), Fields(), GeometryDiscipline.SetBoundary)
    {
      geometry := GeometryDiscipline.AfterSetBoundary(geometry, d.flags, Fields());
      d := d.(boundary := boundary);
    }

    /** style(): a new Style holding a copy of the annotation's style. */
    method GetStyle() returns (s: StylePopup.Style)
      ensures fresh(s) && s.d == d.style
    {
      s := new StylePopup.Style();
      s.d := d.style;
    }

    /** setStyle: takes a copy of `style`, which stays independent. */
    method SetStyle(style: StylePopup.Style)
      requires Valid()
      modifies this
      ensures Valid()
      ensures d == old(d).(style := style.d)
      ensures geometry == old(geometry)
    {
      d := d.(style := style.d);
    }

    /** popup(): a new Popup holding a copy of the annotation's popup. */
    method GetPopup() returns (p: StylePopup.Popup)
      ensures fresh(p) && p.d == d.popup
    {
      p := new StylePopup.Popup();
      p.d := d.popup;
    }

    /** setPopup is documented to do nothing. */
    method SetPopup(popup: StylePopup.Popup)
      ensures d == old(d) && geometry == old(geometry)
    {
    }

    method SetTextIcon(icon: string)
      requires Valid() && d.payload.TextData?
      modifies this
      ensures Valid()
      ensures d == old(d).(payload := old(d.payload).(textIcon := icon))
      ensures geometry == old(geometry)
    {
      d := d.(payload := d.payload.(textIcon := icon));
    }

    method SetTextFont(font: Font)
      requires Valid() && d.payload.TextData?
      modifies this
      ensures Valid()
      ensures d == old(d).(payload := old(d.payload).(textFont := font))
      ensures geometry == old(geometry)
    {
      d := d.(payload := d.payload.(textFont := font));
    }

    method SetTextColor(color: Color)
      requires Valid() && d.payload.TextData?
      modifies this
      ensures Valid()
      ensures d == old(d).(payload := old(d.payload).(textColor := color))
      ensures geometry == old(geometry)
    {
      d := d.(payload := d.payload.(textColor := color));
    }

    method SetInplaceAlign(align: Subtypes.InplaceAlignPosition)
      requires Valid() && d.payload.TextData?
      modifies this
      ensures Valid()
      ensures d == old(d).(payload := old(d.payload).(inplaceAlign := align))
      ensures geometry == old(geometry)
    {
      d := d.(payload := d.payload.(inplaceAlign := align));
    }

    method SetCalloutPoints(points: seq<Point>)
      requires Valid() && d.payload.TextData?
      modifies this
      ensures Valid()
      ensures d == old(d).(payload := old(d.payload).(calloutPoints := points))
      ensures Machine() == GeometryDiscipline.Step(old(Machine()), Fields(), GeometryDiscipline.SetGeometry(GeometryDiscipline.CalloutPoints))
    {
      geometry := GeometryDiscipline.AfterSetGeometry(geometry, GeometryDiscipline.CalloutPoints);
      d := d.(payload := d.payload.(calloutPoints := points));
    }

    method SetInplaceIntent(intent: Subtypes.InplaceIntent)
      requires Valid() && d.payload.TextData?
      modifies this
      ensures Valid()
      ensures d == old(d).(payload := old(d.payload).(inplaceIntent := intent))
      ensures geometry == old(geometry)
    {
      d := d.(payload := d.payload.(inplaceIntent := intent));
    }

    /** calloutPoint(id): the id-th callout point, if there is one. */
    function CalloutPoint(id: int): (r: Option<Point>)
      reads this
      requires d.payload.TextData?
      ensures r.Some? <==> 0 <= id < |d.payload.calloutPoints|
      ensures r.Some? ==> r.value == d.payload.calloutPoints[id]
    {
      if 0 <= id < |d.payload.calloutPoints| then Some(d.payload.calloutPoints[id]) else Option.None
    }

    method SetLinePoints(points: seq<Point>)
      requires Valid() && d.payload.LineData?
      modifies this
      ensures Valid()
      ensures d == old(d).(payload := old(d.payload).(linePoints := points))
      ensures Machine() == GeometryDiscipline.Step(old(Machine()), Fields(), GeometryDiscipline.SetGeometry(GeometryDiscipline.LinePoints))
    {
      geometry := GeometryDiscipline.AfterSetGeometry(geometry, GeometryDiscipline.LinePoints);
      d := d.(payload := d.payload.(linePoints := points));
    }

    method SetLineStartStyle(style: Subtypes.TermStyle)
      requires Valid() && d.payload.LineData?
      modifies this
      ensures Valid()
      ensures d == old(d).(payload := old(d.payload).(lineStartStyle := style))
      ensures geometry == old(geometry)
    {
      d := d.(payload := d.payload.(lineStartStyle := style));
    }

    method SetLineEndStyle(style: Subtypes.TermStyle)
      requires Valid() && d.payload.LineData?
      modifies this
      ensures Valid()
      ensures d == old(d).(payload := old(d.payload).(lineEndStyle := style))
      ensures geometry == old(geometry)
    {
      d := d.(payload := d.payload.(lineEndStyle := style));
    }

    method SetLineClosed(closed: bool)
      requires Valid() && d.payload.LineData?
      modifies this
      ensures Valid()
      ensures d == old(d).(payload := old(d.payload).(lineClosed := closed))
      ensures geometry == old(geometry)
    {
      d := d.(payload := d.payload.(lineClosed := closed));
    }

    method SetLineInnerColor(color: Color)
      requires Valid() && d.payload.LineData?
      modifies this
      ensures Valid()
      ensures d == old(d).(payload := old(d.payload).(lineInnerColor := color))
      ensures geometry == old(geometry)
    {
      d := d.(payload := d.payload.(lineInnerColor := color));
    }

    method SetLineLeadingForwardPoint(point: real)
      requires Valid() && d.payload.LineData?
      modifies this
      ensures Valid()
      ensures d == old(d).(payload := old(d.payload).(lineLeadingForwardPoint := point))
      ensures geometry == old(geometry)
    {
      d := d.(payload := d.payload.(lineLeadingForwardPoint := point));
    }

    method SetLineLeadingBackPoint(point: real)
      requires Valid() && d.payload.LineData?
      modifies this
      ensures Valid()
      ensures d == old(d).(payload := old(d.payload).(lineLeadingBackPoint := point))
      ensures geometry == old(geometry)
    {
      d := d.(payload := d.payload.(lineLeadingBackPoint := point));
    }

    method SetLineShowCaption(show: bool)
      requires Valid() && d.payload.LineData?
      modifies this
      ensures Valid()
      ensures d == old(d).(payload := old(d.payload).(lineShowCaption := show))
      ensures geometry == old(geometry)
    {
      d := d.(payload := d.payload.(lineShowCaption := show));
    }

    method SetLineIntent(intent: Subtypes.LineIntent)
      requires Valid() && d.payload.LineData?
      modifies this
      ensures Valid()
      ensures d == old(d).(payload := old(d.payload).(lineIntent := intent))
      ensures geometry == old(geometry)
    {
      d := d.(payload := d.payload.(lineIntent := intent));
    }

    method SetGeomType(kind: Subtypes.GeomType)
      requires Valid() && d.payload.GeomData?
      modifies this
      ensures Valid()
      ensures d == old(d).(payload := old(d.payload).(geomType := kind))
      ensures geometry == old(geometry)
    {
      d := d.(payload := d.payload.(geomType := kind));
    }

    method SetGeomInnerColor(color: Color)
      requires Valid() && d.payload.GeomData?
      modifies this
      ensures Valid()
      ensures d == old(d).(payload := old(d.payload).(geomInnerColor := color))
      ensures geometry == old(geometry)
    {
      d := d.(payload := d.payload.(geomInnerColor := color));
    }

    method SetHighlightType(kind: Subtypes.HighlightType)
      requires Valid() && d.payload.HighlightData?
      modifies this
      ensures Valid()
      ensures d == old(d).(payload := old(d.payload).(highlightType := kind))
      ensures geometry == old(geometry)
    {
      d := d.(payload := d.payload.(highlightType := kind));
    }

    method SetHighlightQuads(quads: seq<Subtypes.Quad>)
      requires Valid() && d.payload.HighlightData?
      modifies this
      ensures Valid()
      ensures d == old(d).(payload := old(d.payload).(highlightQuads := quads))
      ensures Machine() == GeometryDiscipline.Step(old(Machine()), Fields(), GeometryDiscipline.SetGeometry(GeometryDiscipline.HighlightQuads))
    {
      geometry := GeometryDiscipline.AfterSetGeometry(geometry, GeometryDiscipline.HighlightQuads);
      d := d.(payload := d.payload.(highlightQuads := quads));
    }

    method SetStampIconName(name: string)
      requires Valid() && d.payload.StampData?
      modifies this
      ensures Valid()
      ensures d == old(d).(payload := old(d.payload).(stampIconName := name))
      ensures geometry == old(geometry)
    {
      d := d.(payload := d.payload.(stampIconName := name));
    }

    method SetStampCustomImage(image: Handle)
      requires Valid() && d.payload.StampData?
      modifies this
      ensures Valid()
      ensures d == old(d).(payload := old(d.payload).(stampCustomImage := Some(image)))
      ensures geometry == old(geometry)
    {
      d := d.(payload := d.payload.(stampCustomImage := Some(image)));
    }

    method SetText(text: string)
      requires Valid() && d.payload.SignatureData?
      modifies this
      ensures Valid()
      ensures d == old(d).(payload := Subtypes.SignatureData(old(d.payload.signature).(text := text)))
      ensures geometry == old(geometry)
    {
      d := d.(payload := Subtypes.SignatureData(d.payload.signature.(text := text)));
    }

    method SetLeftText(text: string)
      requires Valid() && d.payload.SignatureData?
      modifies this
      ensures Valid()
      ensures d == old(d).(payload := Subtypes.SignatureData(old(d.payload.signature).(leftText := text)))
      ensures geometry == old(geometry)
    {
      d := d.(payload := Subtypes.SignatureData(d.payload.signature.(leftText := text)));
    }

    method SetFontSize(size: real)
      requires Valid() && d.payload.SignatureData?
      modifies this
      ensures Valid()
      ensures d == old(d).(payload := Subtypes.SignatureData(old(d.payload.signature).(fontSize := size)))
      ensures geometry == old(geometry)
    {
      d := d.(payload := Subtypes.SignatureData(d.payload.signature.(fontSize := size)));
    }

    method SetLeftFontSize(size: real)
      requires Valid() && d.payload.SignatureData?
      modifies this
      ensures Valid()
      ensures d == old(d).(payload := Subtypes.SignatureData(old(d.payload.signature).(leftFontSize := size)))
      ensures geometry == old(geometry)
    {
      d := d.(payload := Subtypes.SignatureData(d.payload.signature.(leftFontSize := size)));
    }

    method SetFontColor(color: Color)
      requires Valid() && d.payload.SignatureData?
      modifies this
      ensures Valid()
      ensures d == old(d).(payload := Subtypes.SignatureData(old(d.payload.signature).(fontColor := color)))
      ensures geometry == old(geometry)
    {
      d := d.(payload := Subtypes.SignatureData(d.payload.signature.(fontColor := color)));
    }

    method SetBorderColor(color: Color)
      requires Valid() && d.payload.SignatureData?
      modifies this
      ensures Valid()
      ensures d == old(d).(payload := Subtypes.SignatureData(old(d.payload.signature).(borderColor := color)))
      ensures geometry == old(geometry)
    {
      d := d.(payload := Subtypes.SignatureData(d.payload.signature.(borderColor := color)));
    }

    method SetBorderWidth(width: real)
      requires Valid() && d.payload.SignatureData?
      modifies this
      ensures Valid()
      ensures d == old(d).(payload := Subtypes.SignatureData(old(d.payload.signature).(borderWidth := width)))
      ensures geometry == old(geometry)
    {
      d := d.(payload := Subtypes.SignatureData(d.payload.signature.(borderWidth := width)));
    }

    method SetBackgroundColor(color: Color)
      requires Valid() && d.payload.SignatureData?
      modifies this
      ensures Valid()
      ensures d == old(d).(payload := Subtypes.SignatureData(old(d.payload.signature).(backgroundColor := color)))
      ensures geometry == old(geometry)
    {
      d := d.(payload := Subtypes.SignatureData(d.payload.signature.(backgroundColor := color)));
    }

    method SetImagePath(path: string)
      requires Valid() && d.payload.SignatureData?
      modifies this
      ensures Valid()
      ensures d == old(d).(payload := Subtypes.SignatureData(old(d.payload.signature).(imagePath := path)))
      ensures geometry == old(geometry)
    {
      d := d.(payload := Subtypes.SignatureData(d.payload.signature.(imagePath := path)));
    }

    method SetFieldPartialName(name: string)
      requires Valid() && d.payload.SignatureData?
      modifies this
      ensures Valid()
      ensures d == old(d).(payload := Subtypes.SignatureData(old(d.payload.signature).(fieldPartialName := name)))
      ensures geometry == old(geometry)
    {
      d := d.(payload := Subtypes.SignatureData(d.payload.signature.(fieldPartialName := name)));
    }

    method SetInkPaths(paths: seq<seq<Point>>)
      requires Valid() && d.payload.InkData?
      modifies this
      ensures Valid()
      ensures d == old(d).(payload := old(d.payload).(inkPaths := paths))
      ensures Machine() == GeometryDiscipline.Step(old(Machine()), Fields(), GeometryDiscipline.SetGeometry(GeometryDiscipline.InkPaths))
    {
      geometry := GeometryDiscipline.AfterSetGeometry(geometry, GeometryDiscipline.InkPaths);
      d := d.(payload := d.payload.(inkPaths := paths));
    }

    /** setLinkDestination takes ownership of `link`; a null link (`None`) clears the destination. */
    method SetLinkDestination(link: Option<Handle>)
      requires Valid() && d.payload.LinkData?
      modifies this
      ensures Valid()
      ensures d == old(d).(payload := old(d.payload).(linkDestination := link))
      ensures geometry == old(geometry)
    {
      d := d.(payload := d.payload.(linkDestination := link));
    }

    method SetLinkHighlightMode(mode: Subtypes.HighlightMode)
      requires Valid() && d.payload.LinkData?
      modifies this
      ensures Valid()
      ensures d == old(d).(payload := old(d.payload).(linkHighlightMode := mode))
      ensures geometry == old(geometry)
    {
      d := d.(payload := d.payload.(linkHighlightMode := mode));
    }

    /** setLinkRegionPoint(id, point): one corner of the active region. */
    method SetLinkRegionPoint(id: int, point: Point)
      requires Valid() && d.payload.LinkData?
      modifies this
      ensures Valid()
      ensures d == old(d).(payload := old(d.payload).(linkRegion := old(d.payload.linkRegion)[id := point]))
      ensures Machine() == GeometryDiscipline.Step(old(Machine()), Fields(), GeometryDiscipline.SetGeometry(GeometryDiscipline.LinkRegionPoint(id)))
    {
      ghost var before := Fields();
      geometry := GeometryDiscipline.AfterSetGeometry(geometry, GeometryDiscipline.LinkRegionPoint(id));
      d := d.(payload := d.payload.(linkRegion := d.payload.linkRegion[id := point]));
      assert before <= Fields() && GeometryDiscipline.LinkRegionPoint(id) in Fields();
    }

    /** linkRegionPoint(id): the corner set for `id`, if any. */
    function LinkRegionPoint(id: int): (r: Option<Point>)
      reads this
      requires d.payload.LinkData?
      ensures r.Some? <==> id in d.payload.linkRegion
      ensures r.Some? ==> r.value == d.payload.linkRegion[id]
    {
      if id in d.payload.linkRegion then Some(d.payload.linkRegion[id]) else Option.None
    }

    method SetCaretSymbol(symbol: Subtypes.CaretSymbol)
      requires Valid() && d.payload.CaretData?
      modifies this
      ensures Valid()
      ensures d == old(d).(payload := old(d.payload).(caretSymbol := symbol))
      ensures geometry == old(geometry)
    {
      d := d.(payload := d.payload.(caretSymbol := symbol));
    }

    method SetFileIconName(icon: string)
      requires Valid() && d.payload.FileAttachmentData?
      modifies this
      ensures Valid()
      ensures d == old(d).(payload := old(d.payload).(fileIconName := icon))
      ensures geometry == old(geometry)
    {
      d := d.(payload := d.payload.(fileIconName := icon));
    }

    /** setEmbeddedFile takes ownership of `file`; a null pointer (`None`) clears the file. */
    method SetEmbeddedFile(file: Option<Handle>)
      requires Valid() && d.payload.FileAttachmentData?
      modifies this
      ensures Valid()
      ensures d == old(d).(payload := old(d.payload).(embeddedFile := file))
      ensures geometry == old(geometry)
    {
      d := d.(payload := d.payload.(embeddedFile := file));
    }

    method SetSoundIconName(icon: string)
      requires Valid() && d.payload.SoundData?
      modifies this
      ensures Valid()
      ensures d == old(d).(payload := old(d.payload).(soundIconName := icon))
      ensures geometry == old(geometry)
    {
      d := d.(payload := d.payload.(soundIconName := icon));
    }

    /** setSound takes ownership of `sound`; a null pointer (`None`) clears the sound. */
    method SetSound(sound: Option<Handle>)
      requires Valid() && d.payload.SoundData?
      modifies this
      ensures Valid()
      ensures d == old(d).(payload := old(d.payload).(sound := sound))
      ensures geometry == old(geometry)
    {
      d := d.(payload := d.payload.(sound := sound));
    }

    /** setMovie takes ownership of `movie`; a null pointer (`None`) clears the movie. */
    method SetMovie(movie: Option<Handle>)
      requires Valid() && d.payload.MovieData?
      modifies this
      ensures Valid()
      ensures d == old(d).(payload := old(d.payload).(movie := movie))
      ensures geometry == old(geometry)
    {
      d := d.(payload := d.payload.(movie := movie));
    }

    method SetMovieTitle(title: string)
      requires Valid() && d.payload.MovieData?
      modifies this
      ensures Valid()
      ensures d == old(d).(payload := old(d.payload).(movieTitle := title))
      ensures geometry == old(geometry)
    {
      d := d.(payload := d.payload.(movieTitle := title));
    }

    /** setAction takes ownership of `action`; a null pointer (`None`) clears the action. */
    method SetAction(action: Option<Handle>)
      requires Valid() && d.payload.ScreenData?
      modifies this
      ensures Valid()
      ensures d == old(d).(payload := old(d.payload).(action := action))
      ensures geometry == old(geometry)
    {
      d := d.(payload := d.payload.(action := action));
    }

    method SetScreenTitle(title: string)
      requires Valid() && d.payload.ScreenData?
      modifies this
      ensures Valid()
      ensures d == old(d).(payload := old(d.payload).(screenTitle := title))
      ensures geometry == old(geometry)
    {
      d := d.(payload := d.payload.(screenTitle := title));
    }

    /** additionalAction(type) of a screen or widget annotation: the action
        defined for that event, or none. */
    function AdditionalAction(event: AnnotationEnums.AdditionalActionType): (r: Option<Handle>)
      reads this
      requires d.payload.ScreenData? || d.payload.WidgetData?
      ensures var actions := if d.payload.ScreenData? then d.payload.screenActions else d.payload.widgetActions;
        (r.Some? <==> event in actions) && (r.Some? ==> r.value == actions[event])
    {
      var actions := if d.payload.ScreenData? then d.payload.screenActions else d.payload.widgetActions;
      if event in actions then Some(actions[event]) else Option.None
    }
  }

  /** Toggles FixedRotation on a text annotation the way the rules demand:
      flags first, then the boundary, then every other geometry property. The
      annotation ends up consistent, with the same callout points. */
  method ToggleFixedRotation(a: Annotation, boundary: Rect)
    requires a.Valid() && a.d.payload.TextData?
    modifies a
    ensures a.Valid()
    ensures a.d.flags == AnnotationEnums.Toggle(old(a.d.flags), AnnotationEnums.FixedRotation)
    ensures GeometryDiscipline.IsFixed(a.d.flags) != GeometryDiscipline.IsFixed(old(a.d.flags))
    ensures AnnotationEnums.AgreeExcept(a.d.flags, old(a.d.flags), AnnotationEnums.FixedRotation)
    ensures GeometryDiscipline.Consistent(a.geometry)
    ensures a.d == old(a.d).(flags := a.d.flags, boundary := boundary)
  {
    var points, before := a.d.payload.calloutPoints, a.d.flags;
    var flags := AnnotationEnums.Toggle(before, AnnotationEnums.FixedRotation);
    assert GeometryDiscipline.Toggles(before, flags)
      && AnnotationEnums.AgreeExcept(flags, before, AnnotationEnums.FixedRotation) by {
      AnnotationEnums.ToggleKeepsOtherFlags(before, AnnotationEnums.FixedRotation);
    }
    a.SetFlags(flags);
    a.SetBoundary(boundary);
    a.SetCalloutPoints(points);
    assert a.d.flags == flags;
  }
}
