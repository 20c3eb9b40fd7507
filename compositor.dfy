/** create_combined_image as a drawing list: the canvas, where the photo is
    pasted, the swatch rectangles and the EXIF text lines. Pixels, fonts and
    the saved file are not modelled; the clustering result (centres and
    their pixel counts) and the decoded EXIF block are inputs. */
module Compositor {
  import opened Dominant
  import opened Swatches
  import opened Layout
  import opened Exif

  /** Vertical distance, in pixels, between consecutive text lines. */
  const LineSpacing: nat := 25

  /** One draw.text call: its anchor and the text drawn. */
  datatype TextLine = TextLine(x: int, y: int, text: string)

  /** What the finished canvas holds. */
  datatype Drawing = Drawing(canvas: Canvas, photoAt: (nat, nat), swatches: seq<Rect>, lines: seq<TextLine>)

  /** The text of one record entry, "<key>: <value>". */
  function LineText(entry: (string, Value)): string
  {
    entry.0 + ": " + Show(entry.1)
  }

  /** The lines the text loop draws: one per entry, in record order, all at
      the same x, the first at top and each next one LineSpacing lower. */
  function TextLines(x: int, top: int, record: Record): (r: seq<TextLine>)
    ensures |r| == |record|
    ensures forall i :: 0 <= i < |r| ==> r[i].x == x && r[i].text == LineText(record[i])
    ensures |r| > 0 ==> r[0].y == top
    ensures forall i :: 0 <= i < |r| - 1 ==> r[i + 1].y == r[i].y + LineSpacing
  {
    seq(|record|, i requires 0 <= i < |record| => TextLine(x, top + LineSpacing * i, LineText(record[i])))
  }

  /** The text loop: draws each entry at the current y, then moves y down. */
  method DrawExifText(x: int, top: int, record: Record) returns (lines: seq<TextLine>)
    ensures lines == TextLines(x, top, record)
  {
    lines := [];
    var textY := top;
    var i := 0;
    while i < |record|
      invariant 0 <= i <= |record|
      invariant textY == top + LineSpacing * i
      invariant lines == TextLines(x, top, record[..i])
    {
      lines := lines + [TextLine(x, textY, LineText(record[i]))];
      textY := textY + LineSpacing;
      i := i + 1;
    }
    assert record[..i] == record;
  }

  /** The y of the first text line: half a margin below the swatch band. */
  function TextTop(c: Canvas): int
  {
    c.swatchTop + c.swatchHeight + c.border / 2
  }

  /** The whole composition: lay out the canvas, paste the photo at
      (border, border), sort the clusters, tile the swatch band, then draw
      the EXIF record, if there is one, below the band. */
  method CreateCombinedImage(width: nat, height: nat, centers: seq<Color>, counts: seq<nat>,
                             exif: Option<map<string, Value>>) returns (d: Drawing)
    requires |centers| == |counts|
    requires |counts| > 0 ==> Sum(counts) > 0
    ensures d.canvas == ComputeLayout(width, height)
    ensures d.photoAt == (d.canvas.border, d.canvas.border)
    ensures var sorted := SortByFrequency(centers, counts);
            d.swatches == Tiling(d.canvas.border, width, d.canvas.swatchTop, d.canvas.swatchHeight,
                                 sorted.0, sorted.1)
    ensures d.lines == match GetExifData(exif)
                       case None => []
                       case Some(record) => TextLines(d.canvas.border, TextTop(d.canvas), record)
    ensures |d.swatches| == |counts|
    ensures forall i :: 0 <= i < |d.swatches| ==>
              d.canvas.border <= d.swatches[i].x0 <= d.swatches[i].x1 <= d.canvas.width - d.canvas.border &&
              d.swatches[i].y0 == d.canvas.swatchTop && d.swatches[i].y1 <= d.canvas.height
    ensures |d.swatches| > 0 ==> d.swatches[|d.swatches| - 1].x1 == d.canvas.border + width
    ensures |d.lines| == if GetExifData(exif).Some? then |Keys| else 0
    ensures forall i :: 0 <= i < |d.lines| ==>
              d.lines[i].x == d.canvas.border &&
              d.lines[i].y == TextTop(d.canvas) + LineSpacing * i &&
              d.lines[i].y >= d.canvas.swatchTop + d.canvas.swatchHeight
  {
    var canvas := ComputeLayout(width, height);
    var border := canvas.border;
    var sorted := SortByFrequency(centers, counts);
    var swatches := TileSwatches(border, width, canvas.swatchTop, canvas.swatchHeight, sorted.0, sorted.1);
    assert |swatches| == |counts|;
    var record := GetExifData(exif);
    var lines := [];
    if record.Some? {
      lines := DrawExifText(border, TextTop(canvas), record.value);
    }
    d := Drawing(canvas, (border, border), swatches, lines);
  }

  /** Which text lines start inside the canvas: line i does exactly when
      25 * i plus half a margin is less than the text band plus a margin.
      Five lines need 100 pixels plus half a margin, so a photo at least
      505 pixels high always has room, and a 100 x 100 photo does not. */
  lemma {:induction false} TextLineInsideCanvas(width: nat, height: nat, i: nat)
    ensures var c := ComputeLayout(width, height);
            TextTop(c) + LineSpacing * i < c.height <==>
            LineSpacing * i + c.border / 2 < c.exifHeight + c.border
    ensures height >= 505 && i < |Keys| ==>
            TextTop(ComputeLayout(width, height)) + LineSpacing * i < ComputeLayout(width, height).height
    ensures width == height == 100 && i == |Keys| - 1 ==>
            TextTop(ComputeLayout(width, height)) + LineSpacing * i >= ComputeLayout(width, height).height
  {
    var c := ComputeLayout(width, height);
    assert c.border / 2 <= c.border;
  }
}
