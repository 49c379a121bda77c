/** The drawing target: a 2D canvas context reduced to its style state and
    a log of the draw calls made on it, in order. Pixels are not modelled. */
module Drawing {
  import opened CardOptions

  /** An image handed to `drawImage`, identified by the parameters that
      produced it (for generated SVGs, the values interpolated into the markup). */
  datatype Picture =
    | Placeholder(fill: string, glyph: string)           // 837x837 square, glyph in the middle
    | Decoded(source: Value)                             // a caller-supplied image, as loaded
    | FlatPanels(fill: string)                           // two rounded rects, 1568x512 at y 0 and 1568x272 at y 565
    | Cropped(source: Value, x: int, y: int, width: int, height: int, radius: int)
    | Darkness(opacity: real)                            // the two panels in #070707 at this opacity
    | ProgressBar(track: string, fill: string, stroke: string, completed: real, knobX: real)

  /** A CSS font shorthand `"<px>px <family>"`. */
  datatype Font = Font(px: nat, family: string)

  datatype Draw =
    | DrawImage(picture: Picture, x: int, y: int)
    | FillText(text: string, x: int, y: int, style: string, font: Font)

  /** The encoded image: its size and what was drawn on it. */
  datatype Png = Png(width: int, height: int, draws: seq<Draw>)

  const DefaultFillStyle: string := "#000000"
  const DefaultFont: Font := Font(10, "sans-serif")

  class Canvas {
    const width: int
    const height: int
    var fillStyle: string
    var font: Font
    var log: seq<Draw>

    /** `createCanvas(width, height).getContext("2d")`. */
    constructor (width: int, height: int)
      ensures this.width == width && this.height == height
      ensures fillStyle == DefaultFillStyle && font == DefaultFont && log == []
    {
      this.width := width;
      this.height := height;
      fillStyle := DefaultFillStyle;
      font := DefaultFont;
      log := [];
    }

    method DrawImage(picture: Picture, x: int, y: int)
      modifies this`log
      ensures log == old(log) + [Draw.DrawImage(picture, x, y)]
    {
      log := log + [Draw.DrawImage(picture, x, y)];
    }

    method SetFillStyle(style: string)
      modifies this`fillStyle
      ensures fillStyle == style
    {
      fillStyle := style;
    }

    method SetFont(f: Font)
      modifies this`font
      ensures font == f
    {
      font := f;
    }

    /** `fillText` paints with the style and font in effect at the call. */
    method FillText(text: string, x: int, y: int)
      modifies this`log
      ensures log == old(log) + [Draw.FillText(text, x, y, fillStyle, font)]
    {
      log := log + [Draw.FillText(text, x, y, fillStyle, font)];
    }

    /** `canvas.encode("png")`. */
    method Encode() returns (png: Png)
      ensures png == Png(width, height, log)
    {
      png := Png(width, height, log);
    }
  }
}
