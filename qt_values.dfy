// The Qt value types the annotation API passes around. They are stored and
// handed back unchanged, never computed with, so each is a plain record here:
// doubles are `real`s (compared, never rounded), and the foreign objects an
// annotation owns (embedded files, sounds, movies, links, renditions, images)
// are opaque handles.

module QtValues {

  datatype Option<+T> = None | Some(value: T)

  /** QPointF, in the page's normalized coordinates: (0,0) is the top-left
      corner and (1,1) the bottom-right one. */
  datatype Point = Point(x: real, y: real)

  /** QRectF: top-left corner, width and height. */
  datatype Rect = Rect(x: real, y: real, width: real, height: real)
  {
    function TopLeft(): Point {
      Point(x, y)
    }
  }

  /** An 8-bit colour channel. */
  type Channel = c: int | 0 <= c < 256

  /** QColor, as red, green, blue and alpha channels. */
  datatype Color = Rgba(red: Channel, green: Channel, blue: Channel, alpha: Channel)

  /** Qt::black */
  const Black: Color := Rgba(0, 0, 0, 255)

  /** Qt::red */
  const Red: Color := Rgba(255, 0, 0, 255)

  /** QFont, kept whole. */
  datatype Font = Font(description: string)

  /** QDateTime: a null date or milliseconds since the epoch. */
  datatype DateTime = NullDate | DateTime(msecsSinceEpoch: int)

  /** A reference to an object the annotation API does not look into
      (EmbeddedFile, SoundObject, MovieObject, Link, LinkRendition, QImage). */
  datatype Handle = Handle(id: nat)
}
