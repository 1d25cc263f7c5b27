/** The two pure steps of the colour-picking click handler in `src/main.js`: turning the mouse
    position into an offset within the canvas's bounding box, with rows counted from the bottom
    as `readPixels` counts them, and naming the RGBA byte quadruple read back at that offset. */
module Pick {

  newtype Byte = b: int | 0 <= b < 256

  /** The `Uint8Array(4)` that `readPixels` fills: red, green, blue, alpha. */
  datatype Pixel = Pixel(r: Byte, g: Byte, b: Byte, a: Byte)

  /** What the handler logs: a colour name, the raw pixel, or the raw pixel with the pick
      coordinates. */
  datatype PickLog = Named(name: string) | RawColor(color: Pixel) | RawColorAt(color: Pixel, x: int, y: int)

  /** The part of `getBoundingClientRect()` the handler uses, in whole pixels. */
  datatype Rect = Rect(left: int, top: int, bottom: int)

  /** Row `mouseY` counted from the top of a canvas `height` rows high, counted from the bottom
      instead. Inside the canvas it stays inside, and flipping the result gives `mouseY` back. */
  function FlipY(height: int, mouseY: int): (y: int)
    ensures 0 <= y < height <==> 0 <= mouseY < height
    ensures height - y - 1 == mouseY
  {
    height - mouseY - 1
  }

  /** The flip reverses the order of rows. */
  lemma FlipYReverses(height: int, m1: int, m2: int)
    requires m1 < m2
    ensures FlipY(height, m1) > FlipY(height, m2)
  {
  }

  /** The pixel picked by a click at client position (clientX, clientY) on a canvas whose
      bounding box is `rect`: x is the offset from the left edge, y the flipped offset from the
      top edge. A click inside the box picks a row of the box. */
  function PickPixel(clientX: int, clientY: int, rect: Rect): (p: (int, int))
    ensures p.0 == clientX - rect.left
    ensures rect.top <= clientY < rect.bottom <==> 0 <= p.1 < rect.bottom - rect.top
    ensures rect.bottom - p.1 - 1 == clientY
  {
    var mouseX := clientX - rect.left;
    var mouseY := clientY - rect.top;
    (mouseX, FlipY(rect.bottom - rect.top, mouseY))
  }

  /** The nested if/else on the first three channels. Red and green full is yellow whatever
      blue is; red and blue full is magenta; green and blue full is cyan; green alone is green;
      blue alone is blue. Red alone, and no full channel at all, have no name and are logged
      raw, the latter together with the coordinates. Alpha never matters. */
  function ClassifyPick(color: Pixel, x: int, y: int): (r: PickLog)
    ensures r == Named("yellow") <==> color.r == 255 && color.g == 255
    ensures r == Named("magenta") <==> color.r == 255 && color.g != 255 && color.b == 255
    ensures r == Named("cyan") <==> color.r != 255 && color.g == 255 && color.b == 255
    ensures r == Named("green") <==> color.r != 255 && color.g == 255 && color.b != 255
    ensures r == Named("blue") <==> color.r != 255 && color.g != 255 && color.b == 255
    ensures r == RawColor(color) <==> color.r == 255 && color.g != 255 && color.b != 255
    ensures r == RawColorAt(color, x, y) <==> color.r != 255 && color.g != 255 && color.b != 255
  {
    if color.r == 255 then
      if color.g == 255 then Named("yellow")
      else if color.b == 255 then Named("magenta")
      else RawColor(color)
    else if color.g == 255 then
      if color.b == 255 then Named("cyan")
      else Named("green")
    else if color.b == 255 then Named("blue")
    else RawColorAt(color, x, y)
  }

  /** The names the classifier can produce: every result is one of five names or a raw log. */
  lemma ClassifyPickOutcomes(color: Pixel, x: int, y: int)
    ensures ClassifyPick(color, x, y) in
      { Named("yellow"), Named("magenta"), Named("cyan"), Named("green"), Named("blue"),
        RawColor(color), RawColorAt(color, x, y) }
  {
  }
}
