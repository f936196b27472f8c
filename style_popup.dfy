// Annotation::Style and Annotation::Popup (shared/include/poppler/qt6/
// poppler-annotation.h): value containers with a copy constructor and an
// assignment operator. Each object holds its own record `d`, so copying one
// and editing the copy leaves the original as it was.

module StylePopup {

  import opened QtValues
  import AnnotationEnums

  /** The properties of a Style. */
  datatype StyleData = StyleData(
    color: Color,
    opacity: real,
    width: real,
    lineStyle: AnnotationEnums.LineStyle,
    xCorners: real,
    yCorners: real,
    dashArray: seq<real>,
    lineEffect: AnnotationEnums.LineEffect,
    effectIntensity: real)

  /** The values a default-constructed Style reports. */
  const DefaultStyle: StyleData :=
    StyleData(Black, 1.0, 1.0, AnnotationEnums.Solid, 0.0, 0.0, [3.0], AnnotationEnums.NoEffect, 1.0)

  class Style {
    var d: StyleData

    /** Style(): black, opaque, one unit wide, solid, square corners, dash
        array [3], no effect at full intensity. */
    constructor()
      ensures d == DefaultStyle
      ensures d.color == Black && d.opacity == 1.0 && d.width == 1.0
      ensures d.lineStyle == AnnotationEnums.Solid && d.xCorners == 0.0 && d.yCorners == 0.0
      ensures d.dashArray == [3.0]
      ensures d.lineEffect == AnnotationEnums.NoEffect && d.effectIntensity == 1.0
    {
      d := DefaultStyle;
    }

    /** Style(const Style &other) */
    constructor Copy(other: Style)
      ensures d == other.d
    {
      d := other.d;
    }

    /** operator=: takes over every property of `other`, which is untouched. */
    method Assign(other: Style)
      modifies this
      ensures d == other.d
      ensures other != this ==> other.d == old(other.d)
    {
      d := other.d;
    }

    method SetColor(color: Color)
      modifies this
      ensures d == old(d).(color := color)
    {
      d := d.(color := color);
    }

    method SetOpacity(opacity: real)
      modifies this
      ensures d == old(d).(opacity := opacity)
    {
      d := d.(opacity := opacity);
    }

    method SetWidth(width: real)
      modifies this
      ensures d == old(d).(width := width)
    {
      d := d.(width := width);
    }

    method SetLineStyle(style: AnnotationEnums.LineStyle)
      modifies this
      ensures d == old(d).(lineStyle := style)
    {
      d := d.(lineStyle := style);
    }

    method SetXCorners(radius: real)
      modifies this
      ensures d == old(d).(xCorners := radius)
    {
      d := d.(xCorners := radius);
    }

    method SetYCorners(radius: real)
      modifies this
      ensures d == old(d).(yCorners := radius)
    {
      d := d.(yCorners := radius);
    }

    method SetDashArray(dashes: seq<real>)
      modifies this
      ensures d == old(d).(dashArray := dashes)
    {
      d := d.(dashArray := dashes);
    }

    method SetLineEffect(effect: AnnotationEnums.LineEffect)
      modifies this
      ensures d == old(d).(lineEffect := effect)
    {
      d := d.(lineEffect := effect);
    }

    method SetEffectIntensity(intensity: real)
      modifies this
      ensures d == old(d).(effectIntensity := intensity)
    {
      d := d.(effectIntensity := intensity);
    }
  }

  /** Copying a style and then editing the copy leaves the original alone. */
  method CopyThenEdit(original: Style, width: real) returns (copy: Style)
    ensures fresh(copy)
    ensures copy.d == original.d.(width := width)
    ensures original.d == old(original.d)
  {
    copy := new Style.Copy(original);
    copy.SetWidth(width);
  }

  /** The properties of a Popup. `flags` is -1 until the window was set up. */
  datatype PopupData = PopupData(flags: int, geometry: Rect, title: string, summary: string, text: string)

  /** The flags value of a popup that was never initialised. */
  const NeverInitialized: int := -1

  class Popup {
    var d: PopupData

    /** Popup(): flags -1, empty title, summary and text; the geometry has no
        documented default. */
    constructor()
      ensures d.flags == NeverInitialized
      ensures d.title == "" && d.summary == "" && d.text == ""
    {
      var geometry: Rect := *;
      d := PopupData(NeverInitialized, geometry, "", "", "");
    }

    /** Popup(const Popup &other) */
    constructor Copy(other: Popup)
      ensures d == other.d
    {
      d := other.d;
    }

    /** operator=: takes over every property of `other`, which is untouched. */
    method Assign(other: Popup)
      modifies this
      ensures d == other.d
      ensures other != this ==> other.d == old(other.d)
    {
      d := other.d;
    }

    method SetFlags(flags: int)
      modifies this
      ensures d == old(d).(flags := flags)
    {
      d := d.(flags := flags);
    }

    method SetGeometry(geometry: Rect)
      modifies this
      ensures d == old(d).(geometry := geometry)
    {
      d := d.(geometry := geometry);
    }

    method SetTitle(title: string)
      modifies this
      ensures d == old(d).(title := title)
    {
      d := d.(title := title);
    }

    method SetSummary(summary: string)
      modifies this
      ensures d == old(d).(summary := summary)
    {
      d := d.(summary := summary);
    }

    method SetText(text: string)
      modifies this
      ensures d == old(d).(text := text)
    {
      d := d.(text := text);
    }
  }
}
