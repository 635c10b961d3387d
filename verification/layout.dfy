/**
 Placement geometry of the three renderers. A canvas is its dimensions plus
 the drawing operations issued on it, in order: the background fill, the
 paste of the scaled source image, and the text drawn with a TrueType font.
 Coordinates are `real` because PHP's `/` yields a float whenever the
 division is not exact.
 */
module Layout {
  import opened Common
  import opened Color

  /** A placed rectangle: top-left corner and size. */
  datatype Rect = Rect(x: real, y: real, w: real, h: real)

  datatype DrawOp =
    | Fill(color: Rgb)                 // imagefill from the corner (0, 0)
    | Paste(at: Rect)                  // imagecopy of the source image scaled to at.w x at.h
    | Text(x: real, y: real, fontSize: real, color: Rgb, fontPath: string, text: string)
                                       // imagettftext, (x, y) is the start of the baseline

  datatype Canvas = Canvas(width: int, height: int, ops: seq<DrawOp>)

  /** Text measurement, `imagettfbbox($size, 0, $font, $text)[2]`: size, font path, text. */
  type Measure = (real, string, string) -> int

  /** Equal left and right margins, equal top and bottom margins. */
  predicate Centered(r: Rect, width: real, height: real) {
    r.x + r.w + r.x == width && r.y + r.h + r.y == height
  }

  predicate Inside(r: Rect, width: real, height: real) {
    0.0 <= r.x && 0.0 <= r.y && r.x + r.w <= width && r.y + r.h <= height
  }

  /** App icon: the source scaled to half the side, centred on the square canvas. */
  function IconRect(side: int): (r: Rect)
    ensures r.w == r.h && 2.0 * r.w == side as real
    ensures 4.0 * r.x == side as real && r.y == r.x
    ensures Centered(r, side as real, side as real)
    ensures side >= 0 ==> Inside(r, side as real, side as real)
  {
    var scaled := side as real / 2.0;
    Rect((side as real - scaled) / 2.0, (side as real - scaled) / 2.0, scaled, scaled)
  }

  function IconCanvas(side: int, background: Rgb): (c: Canvas)
    ensures c.width == side && c.height == side
    ensures |c.ops| == 2 && c.ops[0] == Fill(background) && c.ops[1] == Paste(IconRect(side))
    ensures 4.0 * c.ops[1].at.x == side as real && 2.0 * c.ops[1].at.w == side as real
    ensures side >= 0 ==> Inside(c.ops[1].at, side as real, side as real)
  {
    Canvas(side, side, [Fill(background), Paste(IconRect(side))])
  }

  /**
   Splash icon: `percentage` per cent of the screen width, the height scaled by
   the same factor as the width, centred on the screen.
   */
  function SplashIconRect(screen: ScreenSize, srcWidth: int, srcHeight: int, percentage: int): (r: Rect)
    requires srcWidth > 0
    ensures 100.0 * r.w == (screen.width * percentage) as real
    ensures r.h * srcWidth as real == r.w * srcHeight as real
    ensures Centered(r, screen.width as real, screen.height as real)
  {
    var iconWidth := screen.width as real * (percentage as real / 100.0);
    var iconHeight := srcHeight as real * (iconWidth / srcWidth as real);
    Rect((screen.width as real - iconWidth) / 2.0, (screen.height as real - iconHeight) / 2.0, iconWidth, iconHeight)
  }

  /** With a percentage between 0 and 100 the icon stays within the screen's width. */
  lemma SplashIconFitsWidth(screen: ScreenSize, srcWidth: int, srcHeight: int, percentage: int)
    requires srcWidth > 0 && screen.width >= 0 && 0 <= percentage <= 100
    ensures var r := SplashIconRect(screen, srcWidth, srcHeight, percentage);
      0.0 <= r.x && r.x + r.w <= screen.width as real
  {
  }

  /** Font size of the splash caption. */
  const CaptionFontSize: real := 30.0

  /** Splash caption: centred by its measured width, baseline 6% above the bottom edge. */
  function CaptionText(screen: ScreenSize, textWidth: int, color: Rgb, fontPath: string, caption: string): (op: DrawOp)
    ensures op.Text? && op.fontSize == CaptionFontSize && op.text == caption && op.color == color
    ensures op.fontPath == fontPath
    ensures op.x + textWidth as real + op.x == screen.width as real
    ensures 100.0 * op.y == 94.0 * screen.height as real
  {
    Text((screen.width as real - textWidth as real) / 2.0,
         screen.height as real - (screen.height * 6) as real / 100.0,
         CaptionFontSize, color, fontPath, caption)
  }

  /** A splash screen: fill, centred icon, and the caption only when one is given. */
  function SplashCanvas(screen: ScreenSize, srcWidth: int, srcHeight: int, percentage: int,
                        caption: Option<string>, measure: Measure, fontPath: string,
                        background: Rgb, textColor: Rgb): (c: Canvas)
    requires srcWidth > 0
    ensures c.width == screen.width && c.height == screen.height
    ensures |c.ops| == (if caption.Some? then 3 else 2)
    ensures c.ops[0] == Fill(background)
    ensures c.ops[1] == Paste(SplashIconRect(screen, srcWidth, srcHeight, percentage))
    ensures caption.Some? ==>
      c.ops[2] == CaptionText(screen, measure(CaptionFontSize, fontPath, caption.value), textColor, fontPath, caption.value)
  {
    var drawn := [Fill(background), Paste(SplashIconRect(screen, srcWidth, srcHeight, percentage))];
    match caption
    case None => Canvas(screen.width, screen.height, drawn)
    case Some(text) =>
      var textWidth := measure(CaptionFontSize, fontPath, text);
      Canvas(screen.width, screen.height, drawn + [CaptionText(screen, textWidth, textColor, fontPath, text)])
  }

  /**
   Favicon letters: half the favicon size, centred by their measured width,
   baseline at half the size plus half the font size.
   */
  function FaviconText(size: int, textWidth: int, color: Rgb, fontPath: string, letters: string): (op: DrawOp)
    ensures op.Text? && 2.0 * op.fontSize == size as real && op.text == letters && op.color == color
    ensures op.fontPath == fontPath
    ensures op.x + textWidth as real + op.x == size as real
    ensures 4.0 * op.y == 3.0 * size as real
  {
    var fontSize := size as real / 2.0;
    Text((size as real - textWidth as real) / 2.0, size as real / 2.0 + fontSize / 2.0,
         fontSize, color, fontPath, letters)
  }

  /** A favicon: a square canvas with only the fill and the letters, no source image. */
  function FaviconCanvas(size: int, letters: string, measure: Measure, fontPath: string,
                         background: Rgb, textColor: Rgb): (c: Canvas)
    ensures c.width == size && c.height == size
    ensures |c.ops| == 2 && c.ops[0] == Fill(background)
    ensures c.ops[1] == FaviconText(size, measure(size as real / 2.0, fontPath, letters), textColor, fontPath, letters)
    ensures forall k :: 0 <= k < |c.ops| ==> !c.ops[k].Paste?
  {
    var textWidth := measure(size as real / 2.0, fontPath, letters);
    Canvas(size, size, [Fill(background), FaviconText(size, textWidth, textColor, fontPath, letters)])
  }
}
