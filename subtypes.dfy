// The properties each concrete annotation class adds to Annotation
// (shared/include/poppler/qt6/poppler-annotation.h): one payload variant per
// class, the class-local enumerations, HighlightAnnotation::Quad and the
// signing outcome of SignatureAnnotation.

module Subtypes {

  import opened QtValues
  import AnnotationEnums
  import GeometryDiscipline
  import RichMedia

  // TextAnnotation
  datatype TextType = Linked | InPlace
  datatype InplaceIntent = Unknown | Callout | TypeWriter
  datatype InplaceAlignPosition = InplaceAlignLeft | InplaceAlignCenter | InplaceAlignRight

  // LineAnnotation
  datatype LineType = StraightLine | Polyline
  datatype TermStyle = Square | Circle | Diamond | OpenArrow | ClosedArrow | None | Butt | ROpenArrow | RClosedArrow | Slash
  datatype LineIntent = Unknown | Arrow | Dimension | PolygonCloud

  // GeomAnnotation
  datatype GeomType = InscribedSquare | InscribedCircle

  // HighlightAnnotation
  datatype HighlightType = Highlight | Squiggly | Underline | StrikeOut

  // LinkAnnotation
  datatype HighlightMode = None | Invert | Outline | Push

  // CaretAnnotation
  datatype CaretSymbol = None | P

  /** The four corners of a highlighted area. */
  type QuadPoints = s: seq<Point> | |s| == 4
    witness [Point(0.0, 0.0), Point(0.0, 0.0), Point(0.0, 0.0), Point(0.0, 0.0)]

  /** HighlightAnnotation::Quad: a quadrilateral around highlighted words. */
  datatype Quad = Quad(points: QuadPoints, capStart: bool, capEnd: bool, feather: real)

  /** The feather of a quad lies in [0, 1]. */
  predicate ValidQuad(q: Quad) {
    0.0 <= q.feather <= 1.0
  }

  /** A quad over `points` with the documented defaults: no caps, feather 0.1. */
  function DefaultQuad(points: QuadPoints): (q: Quad)
    ensures q.points == points
    ensures !q.capStart && !q.capEnd
    ensures q.feather == 0.1 && ValidQuad(q)
  {
    Quad(points, false, false, 0.1)
  }

  /** SignatureAnnotation::SigningResult */
  datatype SigningResult =
    | SigningSuccess | FieldAlreadySigned | GenericSigningError | InternalError
    | KeyMissing | WriteFailed | UserCancelled | BadPassphrase

  /** The value each outcome has in the enum: they are numbered in order from 0. */
  function SigningResultValue(r: SigningResult): (v: int)
    ensures 0 <= v < 8
    ensures v == 0 <==> r == SigningSuccess
  {
    match r
    case SigningSuccess => 0
    case FieldAlreadySigned => 1
    case GenericSigningError => 2
    case InternalError => 3
    case KeyMissing => 4
    case WriteFailed => 5
    case UserCancelled => 6
    case BadPassphrase => 7
  }

  /** The seven failure outcomes. */
  const Failures: seq<SigningResult> :=
    [FieldAlreadySigned, GenericSigningError, InternalError, KeyMissing, WriteFailed, UserCancelled, BadPassphrase]

  /** Exactly one outcome is a success; the seven failures are distinct values,
      and every other outcome is one of them. */
  lemma SigningResultsShape(r: SigningResult, s: SigningResult)
    ensures SigningResultValue(r) == SigningResultValue(s) ==> r == s
    ensures r != SigningSuccess <==> r in Failures
    ensures |Failures| == 7
    ensures forall i, j :: 0 <= i < j < |Failures| ==> Failures[i] != Failures[j]
  {
    assert r != SigningSuccess ==> r in Failures by {
      match r
      case SigningSuccess =>
      case FieldAlreadySigned => assert Failures[0] == r;
      case GenericSigningError => assert Failures[1] == r;
      case InternalError => assert Failures[2] == r;
      case KeyMissing => assert Failures[3] == r;
      case WriteFailed => assert Failures[4] == r;
      case UserCancelled => assert Failures[5] == r;
      case BadPassphrase => assert Failures[6] == r;
    }
  }

  /** The properties of a SignatureAnnotation. */
  datatype SignatureProperties = SignatureProperties(
    text: string,
    leftText: string,
    fontSize: real,
    leftFontSize: real,
    fontColor: Color,
    borderColor: Color,
    borderWidth: real,
    backgroundColor: Color,
    imagePath: string,
    fieldPartialName: string)

  /** The additional actions of a screen or widget annotation, by event. */
  type AdditionalActions = map<AnnotationEnums.AdditionalActionType, Handle>

  /** The properties the concrete class adds, one variant per class. */
  datatype Payload =
    | TextData(textType: TextType, textIcon: string, textFont: Font, textColor: Color,
               inplaceAlign: InplaceAlignPosition, calloutPoints: seq<Point>, inplaceIntent: InplaceIntent)
    | LineData(lineType: LineType, linePoints: seq<Point>, lineStartStyle: TermStyle, lineEndStyle: TermStyle,
               lineClosed: bool, lineInnerColor: Color, lineLeadingForwardPoint: real,
               lineLeadingBackPoint: real, lineShowCaption: bool, lineIntent: LineIntent)
    | GeomData(geomType: GeomType, geomInnerColor: Color)
    | HighlightData(highlightType: HighlightType, highlightQuads: seq<Quad>)
    | StampData(stampIconName: string, stampCustomImage: Option<Handle>)
    | SignatureData(signature: SignatureProperties)
    | InkData(inkPaths: seq<seq<Point>>)
    | LinkData(linkDestination: Option<Handle>, linkHighlightMode: HighlightMode, linkRegion: map<int, Point>)
    | CaretData(caretSymbol: CaretSymbol)
    | FileAttachmentData(fileIconName: string, embeddedFile: Option<Handle>)
    | SoundData(soundIconName: string, sound: Option<Handle>)
    | MovieData(movie: Option<Handle>, movieTitle: string)
    | ScreenData(action: Option<Handle>, screenTitle: string, screenActions: AdditionalActions)
    | WidgetData(widgetActions: AdditionalActions)
    | RichMediaData(tree: RichMedia.RichMediaTree)

  /** The class a payload belongs to reports tag `t` from subType(). The header
      gives SignatureAnnotation no tag of its own, so any tag is allowed there. */
  predicate Matches(t: AnnotationEnums.SubType, p: Payload) {
    match p
    case TextData(_, _, _, _, _, _, _) => t == AnnotationEnums.AText
    case LineData(_, _, _, _, _, _, _, _, _, _) => t == AnnotationEnums.ALine
    case GeomData(_, _) => t == AnnotationEnums.AGeom
    case HighlightData(_, _) => t == AnnotationEnums.AHighlight
    case StampData(_, _) => t == AnnotationEnums.AStamp
    case SignatureData(_) => true
    case InkData(_) => t == AnnotationEnums.AInk
    case LinkData(_, _, _) => t == AnnotationEnums.ALink
    case CaretData(_) => t == AnnotationEnums.ACaret
    case FileAttachmentData(_, _) => t == AnnotationEnums.AFileAttachment
    case SoundData(_, _) => t == AnnotationEnums.ASound
    case MovieData(_, _) => t == AnnotationEnums.AMovie
    case ScreenData(_, _, _) => t == AnnotationEnums.AScreen
    case WidgetData(_) => t == AnnotationEnums.AWidget
    case RichMediaData(_) => t == AnnotationEnums.ARichMedia
  }

  /** Apart from a signature, a payload fits exactly one tag. */
  lemma MatchesOneTag(t: AnnotationEnums.SubType, u: AnnotationEnums.SubType, p: Payload)
    requires !p.SignatureData?
    requires Matches(t, p) && Matches(u, p)
    ensures t == u
  {
  }

  /** The geometry properties, besides the boundary, that the FixedRotation
      rules cover for an annotation with payload `p`. */
  function GeometryFieldsOf(p: Payload): set<GeometryDiscipline.GeometryField> {
    match p
    case TextData(_, _, _, _, _, _, _) => {GeometryDiscipline.CalloutPoints}
    case LineData(_, _, _, _, _, _, _, _, _, _) => {GeometryDiscipline.LinePoints}
    case HighlightData(_, _) => {GeometryDiscipline.HighlightQuads}
    case InkData(_) => {GeometryDiscipline.InkPaths}
    case LinkData(_, _, region) => set id | id in region :: GeometryDiscipline.LinkRegionPoint(id)
    case _ => {}
  }

  /** Only the classes with geometry setters have geometry fields. */
  lemma GeometryFieldsOfClasses(p: Payload, f: GeometryDiscipline.GeometryField)
    requires f in GeometryFieldsOf(p)
    ensures f.CalloutPoints? <==> p.TextData?
    ensures f.LinePoints? <==> p.LineData?
    ensures f.HighlightQuads? <==> p.HighlightData?
    ensures f.InkPaths? <==> p.InkData?
    ensures f.LinkRegionPoint? <==> p.LinkData? && f.id in p.linkRegion
  {
  }
}
