/** The swatch band of create_combined_image: one filled rectangle per
    (colour, count) pair, left to right, each as wide as its share of the
    total pixel count. The source accumulates the share in a float
    (cumulative_ratio); here the running share is kept exactly as the
    integer prefix sum of the counts, so edge i lies at
    border + (width * prefix_i) / total, rounded down. */
module Swatches {
  import opened Dominant
  import opened Arith

  /** The box handed to draw.rectangle, [x0, y0, x1, y1], with its fill. */
  datatype Rect = Rect(x0: int, y0: int, x1: int, y1: int, fill: Color)

  /** How many pairs zip(colors, counts) yields: the shorter length. */
  function PairCount(colors: seq<Color>, counts: seq<nat>): (n: nat)
    ensures n <= |colors| && n <= |counts|
    ensures n == |colors| || n == |counts|
  {
    if |colors| < |counts| then |colors| else |counts|
  }

  /** Left edge of swatch i (and right edge of swatch i - 1). */
  function Edge(border: nat, width: nat, counts: seq<nat>, i: nat): int
    requires i <= |counts| && Sum(counts) > 0
  {
    border + (width * Sum(counts[..i])) / Sum(counts)
  }

  /** Every edge lies within the band, and edges never move left. */
  lemma {:induction false} EdgesMonotone(border: nat, width: nat, counts: seq<nat>, i: nat, j: nat)
    requires i <= j <= |counts| && Sum(counts) > 0
    ensures border <= Edge(border, width, counts, i) <= Edge(border, width, counts, j) <= border + width
  {
    var total := Sum(counts);
    var si, sj := Sum(counts[..i]), Sum(counts[..j]);
    SumPrefixMonotone(counts, i, j);
    SumPrefixMonotone(counts, j, |counts|);
    assert counts[..|counts|] == counts;
    assert si <= sj <= total;
    MulMonotone(si, sj, width);
    MulMonotone(sj, total, width);
    DivMonotone(width * si, width * sj, total);
    DivMonotone(width * sj, width * total, total);
    MulDivCancel(width, total);
    assert 0 <= (width * si) / total by {
      DivMonotone(0, width * si, total);
    }
  }

  /** The first edge is the band's left end; with every count paired, the
      last edge is exactly the band's right end. */
  lemma EdgesSpanBand(border: nat, width: nat, counts: seq<nat>)
    requires Sum(counts) > 0
    ensures Edge(border, width, counts, 0) == border
    ensures Edge(border, width, counts, |counts|) == border + width
  {
    assert counts[..0] == [];
    assert counts[..|counts|] == counts;
    MulDivCancel(width, Sum(counts));
  }

  /** Swatch i is as wide as its exact share width * counts[i] / total, up
      to less than one pixel either way. */
  lemma SwatchWidthProportional(border: nat, width: nat, counts: seq<nat>, i: nat)
    requires i < |counts| && Sum(counts) > 0
    ensures var w, t := Edge(border, width, counts, i + 1) - Edge(border, width, counts, i), Sum(counts) as int;
            -t < w * t - width * counts[i] < t
  {
    var t := Sum(counts);
    var before := Sum(counts[..i]);
    assert Sum(counts[..i + 1]) == before + counts[i] by {
      assert counts[..i + 1][..i] == counts[..i];
    }
    var a, d := width * before, width * counts[i];
    Distribute(width, before, counts[i]);
    assert Edge(border, width, counts, i + 1) - Edge(border, width, counts, i) == (a + d) / t - a / t;
    FloorDifference(a, d, t);
  }

  /** Every edge lies within the band, in non-decreasing order. */
  lemma EdgesOrdered(border: nat, width: nat, counts: seq<nat>)
    requires Sum(counts) > 0
    ensures forall i :: 0 <= i <= |counts| ==>
              border <= Edge(border, width, counts, i) <= border + width
    ensures forall i :: 0 <= i < |counts| ==>
              Edge(border, width, counts, i) <= Edge(border, width, counts, i + 1)
  {
    forall i | 0 <= i <= |counts|
      ensures border <= Edge(border, width, counts, i) <= border + width
    {
      EdgesMonotone(border, width, counts, i, i);
    }
    forall i | 0 <= i < |counts|
      ensures Edge(border, width, counts, i) <= Edge(border, width, counts, i + 1)
    {
      EdgesMonotone(border, width, counts, i, i + 1);
    }
  }

  /** The rectangles the swatch loop draws: rectangle i spans the band's
      height, runs from edge i to edge i + 1 and is filled with colour i. */
  function Tiling(border: nat, width: nat, top: nat, height: nat,
                  colors: seq<Color>, counts: seq<nat>): (r: seq<Rect>)
    requires PairCount(colors, counts) > 0 ==> Sum(counts) > 0
    ensures |r| == PairCount(colors, counts)
    ensures forall i :: 0 <= i < |r| ==>
              r[i].y0 == top && r[i].y1 == top + height && r[i].fill == colors[i]
    ensures |r| > 0 ==> r[0].x0 == border
    ensures forall i :: 0 <= i < |r| - 1 ==> r[i].x1 == r[i + 1].x0
    ensures forall i :: 0 <= i < |r| ==> border <= r[i].x0 <= r[i].x1 <= border + width
    ensures 0 < |r| == |counts| ==> r[|r| - 1].x1 == border + width
  {
    var n := PairCount(colors, counts);
    if n == 0 then []
    else
      EdgesSpanBand(border, width, counts);
      EdgesOrdered(border, width, counts);
      seq(n, i requires 0 <= i < n =>
        Rect(Edge(border, width, counts, i), top, Edge(border, width, counts, i + 1), top + height, colors[i]))
  }

  /** Each drawn swatch is as wide as its colour's exact share of the band,
      width * counts[i] / total, up to less than one pixel either way. */
  lemma TilingWidthProportional(border: nat, width: nat, top: nat, height: nat,
                                colors: seq<Color>, counts: seq<nat>, i: nat)
    requires Sum(counts) > 0 && i < PairCount(colors, counts)
    ensures var r, t := Tiling(border, width, top, height, colors, counts), Sum(counts) as int;
            -t < (r[i].x1 - r[i].x0) * t - width * counts[i] < t
  {
    SwatchWidthProportional(border, width, counts, i);
  }

  /** Sum of the rectangles' widths. */
  function TotalWidth(rects: seq<Rect>): int
  {
    if rects == [] then 0 else TotalWidth(rects[..|rects| - 1]) + (rects[|rects| - 1].x1 - rects[|rects| - 1].x0)
  }

  /** The widths of edge-to-edge rectangles add up to the distance from the
      first left edge to the last right edge. */
  lemma {:induction false} TotalWidthTelescopes(rects: seq<Rect>)
    requires |rects| > 0
    requires forall i :: 0 <= i < |rects| - 1 ==> rects[i].x1 == rects[i + 1].x0
    ensures TotalWidth(rects) == rects[|rects| - 1].x1 - rects[0].x0
  {
    if |rects| > 1 {
      TotalWidthTelescopes(rects[..|rects| - 1]);
    }
  }

  /** With every count paired, the swatch widths add up to the band width:
      no gap and no overflow at the right end. */
  lemma SwatchesFillBand(border: nat, width: nat, top: nat, height: nat,
                         colors: seq<Color>, counts: seq<nat>)
    requires |colors| >= |counts| > 0 && Sum(counts) > 0
    ensures TotalWidth(Tiling(border, width, top, height, colors, counts)) == width
  {
    TotalWidthTelescopes(Tiling(border, width, top, height, colors, counts));
  }

  /** The swatch loop: walks the pairs, keeping the running count (the exact
      form of cumulative_ratio * total) and emitting one rectangle per pair. */
  method TileSwatches(border: nat, width: nat, top: nat, height: nat,
                      colors: seq<Color>, counts: seq<nat>) returns (rects: seq<Rect>)
    requires PairCount(colors, counts) > 0 ==> Sum(counts) > 0
    ensures rects == Tiling(border, width, top, height, colors, counts)
  {
    var n := PairCount(colors, counts);
    var total := Sum(counts);
    var running := 0;
    rects := [];
    var i := 0;
    while i < n
      invariant 0 <= i <= n
      invariant running == Sum(counts[..i])
      invariant |rects| == i
      invariant forall j :: 0 <= j < i ==>
        rects[j] == Rect(Edge(border, width, counts, j), top, Edge(border, width, counts, j + 1), top + height, colors[j])
    {
      var x0 := border + (width * running) / total;
      assert counts[..i + 1][..i] == counts[..i];
      running := running + counts[i];
      var x1 := border + (width * running) / total;
      rects := rects + [Rect(x0, top, x1, top + height, colors[i])];
      i := i + 1;
    }
  }
}
