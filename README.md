# palettePal, modelled in Dafny

palettePal turns a photo into a poster. The photo sits on a white canvas
with a margin. Below it, after a 200 pixel gap, comes a band of colour
swatches, one per dominant colour, each as wide as that colour's share of
the pixels. Under the band, the photo's EXIF settings are printed, one line
per setting: aperture, ISO, shutter speed, camera and lens.

The model covers the deterministic parts of `main.py`:

- `layout.dfy`, module `Layout`: the canvas geometry, derived from the
  photo's width and height.
- `dominant.dfy`, module `Dominant`: the sort of the clusters by descending
  pixel count. Centres and counts move together.
- `swatches.dfy`, module `Swatches`: the swatch loop, which cuts the band
  into contiguous rectangles. The method is proved against a specification
  function (`Tiling`).
- `exif.dfy`, module `Exif`: `get_exif_data`, covering the five lookups,
  the "Unknown" default, aperture and shutter formatting, and the absent
  record. It also has a parser that reads a formatted shutter speed back,
  used as the formatting's inverse.
- `compositor.dfy`, module `Compositor`: the EXIF text loop, and
  `create_combined_image` as a whole, producing the list of things drawn.
- `arith.dfy`, module `Arith`: small facts about multiplication and floor
  division that the geometry proofs use.

The source scales sizes by float constants. The model uses exact integer
arithmetic instead:

- `int(width * 0.1)` becomes `width / 10`.
- `int(height * 0.12)` becomes `12 * height / 100`.
- `int(height * 0.2)` becomes `2 * height / 10`.
- `int(border_width * 0.5)` becomes `border / 2`.
- The float `cumulative_ratio` becomes the integer prefix sum of the counts.
  Edge `i` of the swatch band lies at `border + width * prefix_i / total`,
  rounded down.

## Model

| member | source | states |
|---|---|---|
| Layout.Border | main.py:92 | The margin is 10% of the photo width, rounded down: `10*b <= width < 10*b + 10`. |
| Layout.SwatchHeight | main.py:94 | The swatch band is 12% of the photo height, rounded down. |
| Layout.ExifHeight | main.py:95 | The text band is 20% of the photo height, rounded down. |
| Layout.ComputeLayout | main.py:92-112 | The canvas is margin, photo, margin across. Down, it is margin, photo, 200 px gap, swatch band, text band, margin. The band's top is the margin plus the photo height plus the gap. |
| Layout.CanvasWidthBounds | main.py:92-97 | The canvas is at least as wide as the photo and within two pixels of 6/5 of its width. |
| Layout.CanvasHeightBounds | main.py:92-98 | The canvas height is the photo height plus 200 plus 32% of the height plus a fifth of the width, less under four pixels of rounding. |
| Layout.LayoutMonotone | main.py:92-112 | A photo at least as large in both dimensions never gets a narrower or shorter canvas, or a higher swatch band. |
| Dominant.SortByFrequency | main.py:43-48 | Sorted counts never increase. The (centre, count) pairs are a permutation of the input pairs, so each centre keeps its own count. The counts, and so their total, are unchanged. |
| Dominant.SortPrefixSorted | main.py:46 | Insertion-sorting any prefix of the clusters orders them by non-increasing count. |
| Dominant.SortPrefixPermutes | main.py:46-48 | The sorted clusters are a permutation of the input clusters: nothing is lost or duplicated. |
| Dominant.CountsSortPrefix | main.py:48 | The sorted counts are a permutation of the input counts. |
| Dominant.SumPermutation | main.py:108 | Reordering the counts leaves `np.sum(counts)` unchanged. |
| Swatches.PairCount | main.py:116 | `zip` yields as many pairs as the shorter of the two sequences. |
| Swatches.Tiling | main.py:113-121 | There is one rectangle per pair, in sorted order, each filled with its colour and spanning the band's height. The first starts at the margin. Each starts where the previous one ends. All lie within the band. With every count paired, the last ends at `border + width`. |
| Swatches.TileSwatches | main.py:115-121 | The loop, keeping a running count, draws exactly the rectangles of `Tiling`. |
| Swatches.EdgesMonotone | main.py:117-119 | Edges never move left and never leave the band `[border, border + width]`. |
| Swatches.EdgesSpanBand | main.py:113-119 | The first edge is the margin. The edge after the last count is exactly the band's right end. |
| Swatches.SwatchWidthProportional | main.py:117-119 | Swatch `i` is within one pixel of its exact share `width * counts[i] / total`. |
| Swatches.TilingWidthProportional | main.py:116-121 | Each drawn rectangle is within one pixel of its colour's exact share `width * counts[i] / total` of the band, so block widths are proportional to frequency. |
| Swatches.SwatchesFillBand | main.py:113-121 | The swatch widths add up to the band width, with no gap and no overflow. |
| Exif.Lookup | main.py:62-66 | `dict.get` returns the tag's value if present, and "Unknown" otherwise. |
| Exif.FormatAperture | main.py:73 | The aperture is "Unknown" exactly when its value is the string "Unknown". Otherwise it is "f/" followed by the value's text. |
| Exif.FormatShutter | main.py:68-70 | A tuple `(n, d)` becomes "n/d sec". Any other value passes through unchanged. |
| Exif.GetExifData | main.py:57-78 | The record is absent exactly when the EXIF block is absent or empty. Otherwise it has the five keys Aperture, ISO, Shutter Speed, Camera, Lens, in that order. |
| Exif.MissingTagsDefault | main.py:62-66 | Each of the five fields whose tag is missing reads "Unknown". |
| Exif.PresentTagsPassThrough | main.py:74-77 | ISO, camera and lens are the tag values themselves. |
| Exif.ShutterEntryFormatted | main.py:64-75 | With an ExposureTime tag, the record's Shutter Speed is that tag run through the shutter formatting. A `(n, d)` tuple becomes text that reads back as `(n, d)`, and any other value is the tag value itself. |
| Exif.ApertureUnknownIff | main.py:62-73 | The aperture field reads "Unknown" if and only if the FNumber tag is missing or holds "Unknown". Otherwise it reads "f/" plus the tag's text. |
| Exif.ShutterRoundTrip | main.py:69-70 | Reading a formatted shutter speed back, splitting at the first '/', gives back the numerator and denominator, negative ones included. |
| Exif.ParseIntToString | main.py:70 | The decimal text of an integer reads back as that integer. |
| Compositor.TextLines | main.py:132-137 | There is one line per record entry, in order, each reading "key: value". All lines are at the margin's x. The first is at the start y, and each next one is 25 px lower. |
| Compositor.DrawExifText | main.py:132-137 | The text loop advances y by 25 per entry and draws exactly `TextLines`. |
| Compositor.CreateCombinedImage | main.py:80-137 | The canvas is the layout, and the photo is pasted at (margin, margin). The swatches are the tiling of the sorted clusters: one per cluster, inside the band, the last ending at `border + width`. The text is five lines, or none without EXIF. It starts half a margin below the band, at the margin's x, 25 px apart. |
| Compositor.TextLineInsideCanvas | main.py:95-137 | Text line `i` starts inside the canvas if and only if `25*i + border/2 < exifHeight + border`. All five lines fit when the photo is at least 505 px high. They do not all fit for a 100 x 100 photo. |

## Left out

Not modelled:

- Reading, pasting, drawing, saving and showing images (main.py:29, 88, 101-104, 111, 120, 136, 140-141). The model produces the list of rectangles and text anchors instead of pixels. PIL's inclusive pixel ranges, where neighbouring rectangles share their edge column, are not modelled.
- The k-means clustering and the LANCZOS thumbnail (main.py:32-42), which are foreign float computations. The cluster centres and counts are inputs.
  - The model assumes every label occurs, so there are as many counts as centres, paired by position as the source pairs them.
  - A `Color` holds the centre after truncation to integers.
- `_getexif`, the `TAGS` renaming and font loading (main.py:56, 61, 128-131). The decoded block is an input: a map from tag name to value.
  - Values are strings, integers, (numerator, denominator) pairs of integers, or any other non-tuple object carried with the text Python's `str` gives it. Pillow's `IFDRational` is one such object.
- The "No EXIF data found" message (main.py:58), the interactive prompt and the top-level call (main.py:146-149), and the commented-out older `get_dominant_colors` (main.py:6-24).
- Behaviour that `main.py` does not implement:
  - approximating a float shutter speed as a fraction
  - falling back to k = 6 on bad input
  - rejecting k larger than the pixel count

  The model follows the code. A float exposure time is an `Other` value and passes through unchanged.

Weakened or changed:

- Dominant.SortByFrequency: the order among clusters with equal counts is not the source's. `np.argsort`'s default kind is not stable. The model uses a stable insertion sort, so equal counts keep label order. Every property proved (non-increasing counts, permutation of the pairs, unchanged total) holds whatever the tie order.
- Swatches.Tiling: edges are exact integer floors of prefix-sum ratios. The source accumulates `count / total` in a float, so its edges can differ by a pixel, and its last edge can fall short of `border + width`.
- Swatches.TileSwatches: requires a positive total when at least one pair is drawn. In the source a zero total makes `int(nan)` raise. Counts come from pixel labels, so they are positive.
- Layout.ComputeLayout: the float casts are modelled as exact integer floors.
- Exif.FormatShutter: only 2-tuples of integers are modelled. In the source any tuple takes the tuple branch: a 1-tuple raises IndexError, a longer tuple loses its extra elements, and a tuple of strings prints them without quotes. EXIF rationals are always pairs.
