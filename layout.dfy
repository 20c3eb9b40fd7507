/** The canvas geometry of create_combined_image: a white margin around the
    photo, a fixed gap below it, then the swatch band and the text band.
    The source scales the photo size by the float constants 0.1, 0.12 and
    0.2 and truncates; for photo sizes the program handles those casts agree
    with the integer floors used here (width / 10, 12 * height / 100 and
    2 * height / 10). */
module Layout {
  import opened Arith

  /** Vertical gap, in pixels, between the photo and the swatch band. */
  const Spacing: nat := 200

  /** All positions are in canvas pixels, y growing downwards. */
  datatype Canvas = Canvas(
    border: nat,        // margin on every side; the photo is pasted at (border, border)
    swatchHeight: nat,  // height of the swatch band
    exifHeight: nat,    // height reserved below the band for the EXIF text
    width: nat,         // canvas width
    height: nat,        // canvas height
    swatchTop: nat      // y of the swatch band's top edge
  )

  /** The margin: 10% of the photo width, rounded down. */
  function Border(width: nat): (b: nat)
    ensures 10 * b <= width < 10 * b + 10
  {
    width / 10
  }

  /** The swatch band height: 12% of the photo height, rounded down. */
  function SwatchHeight(height: nat): (s: nat)
    ensures 100 * s <= 12 * height < 100 * s + 100
  {
    (12 * height) / 100
  }

  /** The text band height: 20% of the photo height, rounded down. */
  function ExifHeight(height: nat): (e: nat)
    ensures 10 * e <= 2 * height < 10 * e + 10
  {
    (2 * height) / 10
  }

  /** The canvas for a photo of the given size. Horizontally it is margin,
      photo, margin; vertically margin, photo, gap, swatch band, text band,
      margin, each piece at its place and nothing overlapping. */
  function ComputeLayout(width: nat, height: nat): (c: Canvas)
    ensures c.border == Border(width)
    ensures c.swatchHeight == SwatchHeight(height)
    ensures c.exifHeight == ExifHeight(height)
    ensures c.width == c.border + width + c.border
    ensures c.swatchTop == c.border + height + Spacing
    ensures c.height == c.swatchTop + c.swatchHeight + c.exifHeight + c.border
  {
    var border := Border(width);
    var swatchHeight := SwatchHeight(height);
    var exifHeight := ExifHeight(height);
    Canvas(border, swatchHeight, exifHeight,
           width + 2 * border,
           height + Spacing + swatchHeight + exifHeight + 2 * border,
           border + height + Spacing)
  }

  /** The canvas is the photo widened by a fifth (less rounding): at least
      as wide as the photo, at most 6/5 of it, and less than two pixels
      short of 6/5 of it. */
  lemma CanvasWidthBounds(width: nat, height: nat)
    ensures var c := ComputeLayout(width, height);
            width <= c.width && 5 * c.width <= 6 * width < 5 * c.width + 10
  {
  }

  /** The canvas height is the photo height plus the 200 pixel gap plus 32%
      of the height and a fifth of the width, each rounded down; the
      roundings together lose less than four pixels. */
  lemma CanvasHeightBounds(width: nat, height: nat)
    ensures var c := ComputeLayout(width, height);
            var exact := 100 * (height + Spacing) + 32 * height + 20 * width;
            100 * c.height <= exact < 100 * c.height + 400
  {
  }

  /** A larger photo never gets a smaller canvas. */
  lemma {:induction false} LayoutMonotone(w1: nat, h1: nat, w2: nat, h2: nat)
    requires w1 <= w2 && h1 <= h2
    ensures ComputeLayout(w1, h1).width <= ComputeLayout(w2, h2).width
    ensures ComputeLayout(w1, h1).height <= ComputeLayout(w2, h2).height
    ensures ComputeLayout(w1, h1).swatchTop <= ComputeLayout(w2, h2).swatchTop
  {
    DivMonotone(w1, w2, 10);
    DivMonotone(12 * h1, 12 * h2, 100);
    DivMonotone(2 * h1, 2 * h2, 10);
  }
}
