/** Cropping and resampling a captured window. Floating-point numbers are modelled as
    reals, and truncation of a positive number as its floor. */
module Capture {
  import opened Common

  datatype Region = Region(x: int, y: int, width: int, height: int)

  datatype Options = Options(region: Option<Region>, maxWidth: int, maxHeight: int)

  datatype Size = Size(width: int, height: int)

  predicate Valid(o: Options) {
    && 0 <= o.maxWidth <= 1920 && 0 <= o.maxHeight <= 1920
    && (o.region.Some? ==>
          var r := o.region.value;
          0 <= r.x <= 8192 && 0 <= r.y <= 8192 && 1 <= r.width <= 8192 && 1 <= r.height <= 8192)
  }

  /** The region to capture, None when the options are refused. */
  function Bounds(o: Options, window: Size): Option<Region> {
    if !Valid(o) then None
    else
      var r := if o.region.Some? then o.region.value else Region(0, 0, window.width, window.height);
      if r.x > window.width - r.width || r.y > window.height - r.height then None else Some(r)
  }

  function Limits(o: Options): Size {
    Size(if o.maxWidth == 0 then 1280 else o.maxWidth, if o.maxHeight == 0 then 1920 else o.maxHeight)
  }

  /** A region inside the window is what the bounds let through, and all of it. */
  lemma BoundsInside(o: Options, window: Size)
    ensures Bounds(o, window).Some? <==>
      && 0 <= o.maxWidth <= 1920 && 0 <= o.maxHeight <= 1920
      && (o.region.Some? ==>
            var r := o.region.value;
            && 0 <= r.x <= 8192 && 0 <= r.y <= 8192 && 1 <= r.width <= 8192 && 1 <= r.height <= 8192
            && r.x + r.width <= window.width && r.y + r.height <= window.height)
    ensures Bounds(o, window).Some? ==>
      Bounds(o, window).value == (if o.region.Some? then o.region.value else Region(0, 0, window.width, window.height))
    ensures Bounds(o, window).Some? ==>
      var r := Bounds(o, window).value;
      && 0 <= r.x && 0 <= r.y && r.x + r.width <= window.width && r.y + r.height <= window.height
      && (o.region.Some? || (window.width >= 1 && window.height >= 1) ==> 1 <= r.width && 1 <= r.height)
      && 1 <= Limits(o).width <= 1920 && 1 <= Limits(o).height <= 1920
  {
  }

  function Min(a: real, b: real): real { if a <= b then a else b }

  /** The smaller of the two quotients, side by side. */
  function Ratio(a: Size, b: Size): real
    requires b.width >= 1 && b.height >= 1
  {
    Min(a.width as real / b.width as real, a.height as real / b.height as real)
  }

  /** Output pixels per logical unit. */
  function Scale(o: Options, r: Region, window: Size, buffer: Size): real
    requires window.width >= 1 && window.height >= 1 && r.width >= 1 && r.height >= 1
  {
    var maxZoom := if o.region.Some? then 4.0 else 1.0;
    Min(maxZoom * Ratio(buffer, window), Ratio(Limits(o), Size(r.width, r.height)))
  }

  /** Pixels along one side of the output. */
  function Extent(length: int, scale: real): int {
    var n := (length as real * scale).Floor;
    if n < 1 then 1 else n
  }

  /** Along one axis: the logical coordinate of an output pixel's centre, by the transform
      that is reported with the image. */
  function Centre(start: int, length: int, out: int, i: int): real
    requires out >= 1
  {
    start as real + (i as real + 0.5) * (length as real / out as real)
  }

  /** Along one axis: the logical coordinate as the sampling computes it. */
  function PointAt(start: int, length: int, out: int, i: int): real
    requires out >= 1
  {
    start as real + (i as real + 0.5) * length as real / out as real
  }

  /** Along one axis: the buffer index that is sampled for an output pixel. */
  function Sampled(start: int, length: int, out: int, i: int, buffer: int, window: int): int
    requires out >= 1 && window >= 1
  {
    var n := (PointAt(start, length, out, i) * (buffer as real / window as real)).Floor;
    if n < buffer - 1 then n else buffer - 1
  }

  // ------------------------------------------------------------------- proofs

  lemma DivTimes(a: real, b: real)
    requires b > 0.0
    ensures a / b * b == a
  {
  }

  lemma MulLess(a: real, b: real, c: real)
    requires a < b && c > 0.0
    ensures a * c < b * c
  {
  }

  lemma MulLeq(a: real, b: real, c: real)
    requires a <= b && c >= 0.0
    ensures a * c <= b * c
  {
  }

  lemma Positive(a: real, b: real)
    requires a > 0.0 && b > 0.0
    ensures a / b > 0.0
  {
    DivTimes(a, b);
    if a / b <= 0.0 { MulLeq(a / b, 0.0, b); }
  }

  /** The reported transform and the sampling use the same point. */
  lemma SamePoint(length: real, out: real, t: real)
    requires out > 0.0
    ensures t * (length / out) == t * length / out
  {
    var q := length / out;
    DivTimes(length, out);
    assert t * length == t * q * out;
    DivTimes(t * length, out);
  }

  /** A centre lies strictly inside the region. */
  lemma CentreInside(start: int, length: int, out: int, i: int)
    requires length >= 1 && 0 <= i < out
    ensures start as real < Centre(start, length, out, i) < (start + length) as real
  {
    var t, q := i as real + 0.5, length as real / out as real;
    DivTimes(length as real, out as real);
    assert q > 0.0 by {
      if q <= 0.0 { MulLeq(q, 0.0, out as real); }
    }
    MulLess(0.0, t, q);
    assert t < out as real;
    MulLess(t, out as real, q);
    assert out as real * q == length as real;
  }

  lemma FloorWithin(c: real, w: real, s: real, buffer: int)
    requires 0.0 < c < w && s > 0.0 && s * w == buffer as real
    ensures 0 <= (c * s).Floor < buffer
    ensures (c * s).Floor as real <= c * s < ((c * s).Floor + 1) as real
  {
    MulLess(0.0, c, s);
    MulLess(c, w, s);
  }

  /** Sampling truncates the scaled centre. */
  lemma SampledIsFloor(start: int, length: int, out: int, i: int, buffer: int, window: int)
    requires out >= 1 && window >= 1
    ensures var n := (Centre(start, length, out, i) * (buffer as real / window as real)).Floor;
      Sampled(start, length, out, i, buffer, window) == if n < buffer - 1 then n else buffer - 1
  {
    SamePoint(length as real, out as real, i as real + 0.5);
    assert PointAt(start, length, out, i) == Centre(start, length, out, i);
  }

  lemma ScalePositive(buffer: int, window: int)
    requires buffer >= 1 && window >= 1
    ensures buffer as real / window as real > 0.0
    ensures buffer as real / window as real * window as real == buffer as real
  {
    Positive(buffer as real, window as real);
    DivTimes(buffer as real, window as real);
  }

  /** Along one axis: the sampled index is in the buffer and is the pixel that contains the
      output pixel's centre, which lies strictly inside the region. */
  predicate Faithful(start: int, length: int, out: int, i: int, buffer: int, window: int)
    requires out >= 1 && window >= 1
  {
    var n, c := Sampled(start, length, out, i, buffer, window), Centre(start, length, out, i);
    && 0 <= n < buffer
    && start as real < c < (start + length) as real
    && n as real <= c * (buffer as real / window as real) < (n + 1) as real
  }

  /** The clamp to the last pixel never takes effect. */
  lemma SampledContains(start: int, length: int, out: int, i: int, buffer: int, window: int)
    requires 0 <= start && length >= 1 && start + length <= window && buffer >= 1 && 0 <= i < out
    ensures Faithful(start, length, out, i, buffer, window)
  {
    var c, s := Centre(start, length, out, i), buffer as real / window as real;
    CentreInside(start, length, out, i);
    SampledIsFloor(start, length, out, i, buffer, window);
    ScalePositive(buffer, window);
    FloorWithin(c, window as real, s, buffer);
  }

  /** A side of the output has at least a pixel, at most its limit, and no more than the
      scale asks for. */
  lemma ExtentBounded(length: int, scale: real, limit: int)
    requires length >= 1 && limit >= 1 && scale > 0.0 && scale <= limit as real / length as real
    ensures 1 <= Extent(length, scale) <= limit
    ensures Extent(length, scale) == 1 || Extent(length, scale) as real <= length as real * scale
    ensures length as real * scale < (Extent(length, scale) + 1) as real
  {
    DivTimes(limit as real, length as real);
    MulLeq(scale, limit as real / length as real, length as real);
    assert length as real * scale <= limit as real;
  }

  /** The scale fits both limits, and magnifies the buffer at most four times, or not at
      all without a region. */
  lemma ScaleBounded(o: Options, window: Size, buffer: Size, r: Region)
    requires window.width >= 1 && window.height >= 1 && buffer.width >= 1 && buffer.height >= 1
    requires Bounds(o, window) == Some(r)
    ensures var scale := Scale(o, r, window, buffer);
      && 0.0 < scale <= Limits(o).width as real / r.width as real
      && scale <= Limits(o).height as real / r.height as real
      && scale <= (if o.region.Some? then 4.0 else 1.0) * (buffer.width as real / window.width as real)
      && scale <= (if o.region.Some? then 4.0 else 1.0) * (buffer.height as real / window.height as real)
  {
    BoundsInside(o, window);
    Positive(buffer.width as real, window.width as real);
    Positive(buffer.height as real, window.height as real);
    Positive(Limits(o).width as real, r.width as real);
    Positive(Limits(o).height as real, r.height as real);
  }

  function OutputSize(o: Options, window: Size, buffer: Size, r: Region): Size
    requires window.width >= 1 && window.height >= 1 && r.width >= 1 && r.height >= 1
  {
    var scale := Scale(o, r, window, buffer);
    Size(Extent(r.width, scale), Extent(r.height, scale))
  }

  lemma OutputBounded(o: Options, window: Size, buffer: Size, r: Region)
    requires window.width >= 1 && window.height >= 1 && buffer.width >= 1 && buffer.height >= 1
    requires Bounds(o, window) == Some(r) && r.width >= 1 && r.height >= 1
    ensures var out := OutputSize(o, window, buffer, r);
      1 <= out.width <= Limits(o).width && 1 <= out.height <= Limits(o).height
  {
    BoundsInside(o, window);
    ScaleBounded(o, window, buffer, r);
    var scale := Scale(o, r, window, buffer);
    ExtentBounded(r.width, scale, Limits(o).width);
    ExtentBounded(r.height, scale, Limits(o).height);
  }

  method FillRow(image: array2<nat>, src: array2<nat>, y: int, column: int -> int, py: int)
    requires image != src && 0 <= y < image.Length0 && 0 <= py < src.Length0
    requires forall x :: 0 <= x < image.Length1 ==> 0 <= column(x) < src.Length1
    modifies image
    ensures forall x :: 0 <= x < image.Length1 ==> image[y, x] == src[py, column(x)]
    ensures forall j, i :: 0 <= j < image.Length0 && j != y && 0 <= i < image.Length1 ==> image[j, i] == old(image[j, i])
  {
    for x := 0 to image.Length1
      invariant forall i :: 0 <= i < x ==> image[y, i] == src[py, column(i)]
      invariant forall j, i :: 0 <= j < image.Length0 && j != y && 0 <= i < image.Length1 ==> image[j, i] == old(image[j, i])
    {
      var px := column(x);
      image[y, x] := src[py, px];
    }
  }

  /** The nested loops: every output pixel is copied from the buffer column and row that
      its own column and row sample. */
  method Fill(src: array2<nat>, out: Size, column: int -> int, row: int -> int) returns (image: array2<nat>)
    requires out.width >= 1 && out.height >= 1
    requires forall x :: 0 <= x < out.width ==> 0 <= column(x) < src.Length1
    requires forall y :: 0 <= y < out.height ==> 0 <= row(y) < src.Length0
    ensures fresh(image) && image.Length1 == out.width && image.Length0 == out.height
    ensures forall y, x :: 0 <= y < out.height && 0 <= x < out.width ==> image[y, x] == src[row(y), column(x)]
  {
    image := new nat[out.height, out.width]((_, _) => 0);
    for y := 0 to out.height
      invariant forall j, i :: 0 <= j < y && 0 <= i < out.width ==> image[j, i] == src[row(j), column(i)]
    {
      FillRow(image, src, y, column, row(y));
    }
  }

  /** The output pixel holds the sampled buffer pixel. */
  predicate Copied(image: array2<nat>, src: array2<nat>, r: Region, out: Size, window: Size, y: int, x: int)
    requires out.width >= 1 && out.height >= 1 && window.width >= 1 && window.height >= 1
    requires image.Length0 == out.height && image.Length1 == out.width && 0 <= y < out.height && 0 <= x < out.width
    reads image, src
  {
    var py, px := Sampled(r.y, r.height, out.height, y, src.Length0, window.height),
                  Sampled(r.x, r.width, out.width, x, src.Length1, window.width);
    0 <= py < src.Length0 && 0 <= px < src.Length1 && image[y, x] == src[py, px]
  }

  method Resample(src: array2<nat>, r: Region, out: Size, window: Size) returns (image: array2<nat>)
    requires 0 <= r.x && 0 <= r.y && r.width >= 1 && r.height >= 1
    requires r.x + r.width <= window.width && r.y + r.height <= window.height
    requires out.width >= 1 && out.height >= 1 && src.Length0 >= 1 && src.Length1 >= 1
    ensures fresh(image) && image.Length1 == out.width && image.Length0 == out.height
    ensures forall y, x :: 0 <= y < out.height && 0 <= x < out.width ==> Copied(image, src, r, out, window, y, x)
  {
    var width, height := src.Length1, src.Length0;
    var column := (x: int) => Sampled(r.x, r.width, out.width, x, width, window.width);
    var row := (y: int) => Sampled(r.y, r.height, out.height, y, height, window.height);
    forall x | 0 <= x < out.width ensures 0 <= column(x) < width {
      SampledContains(r.x, r.width, out.width, x, width, window.width);
    }
    forall y | 0 <= y < out.height ensures 0 <= row(y) < height {
      SampledContains(r.y, r.height, out.height, y, height, window.height);
    }
    image := Fill(src, out, column, row);
    forall y, x | 0 <= y < out.height && 0 <= x < out.width ensures Copied(image, src, r, out, window, y, x) {
      assert image[y, x] == src[row(y), column(x)];
    }
  }

  predicate WithinBudget(size: Size) {
    size.width <= 8192 && size.height <= 8192 && size.width * size.height <= 16 * 1024 * 1024
  }

  predicate FitsLimits(s: real, o: Options, r: Region) {
    && s * r.width as real <= (if o.maxWidth == 0 then 1280 else o.maxWidth) as real
    && s * r.height as real <= (if o.maxHeight == 0 then 1920 else o.maxHeight) as real
  }

  predicate FitsZoom(s: real, region: bool, window: Size, buffer: Size) {
    if region
    then s * window.width as real <= 4.0 * buffer.width as real && s * window.height as real <= 4.0 * buffer.height as real
    else s * window.width as real <= buffer.width as real && s * window.height as real <= buffer.height as real
  }

  /** An output of this many pixels per logical unit keeps both limits, and magnifies the
      buffer at most four times with a region and not at all without. */
  predicate Fits(s: real, o: Options, r: Region, window: Size, buffer: Size) {
    FitsLimits(s, o, r) && FitsZoom(s, o.region.Some?, window, buffer)
  }

  /** Each side of the output is a whole number of pixels that the scale asks for, or one. */
  predicate AtMost(out: Size, s: real, r: Region) {
    && (out.width == 1 || out.width as real <= s * r.width as real)
    && (out.height == 1 || out.height as real <= s * r.height as real)
  }

  /** The scale asks for less than a pixel more on either side. */
  predicate LessThanOneShort(out: Size, s: real, r: Region) {
    s * r.width as real < (out.width + 1) as real && s * r.height as real < (out.height + 1) as real
  }

  /** The output is what a fitting scale gives, and no fitting scale gives a pixel more. */
  ghost predicate Largest(out: Size, o: Options, r: Region, window: Size, buffer: Size) {
    && (exists s :: s > 0.0 && Fits(s, o, r, window, buffer) && AtMost(out, s, r))
    && forall s :: Fits(s, o, r, window, buffer) ==> LessThanOneShort(out, s, r)
  }

  lemma DivBound(s: real, w: real, limit: real)
    requires w > 0.0
    ensures s * w <= limit <==> s <= limit / w
  {
    DivTimes(limit, w);
    if s <= limit / w { MulLeq(s, limit / w, w); } else { MulLess(limit / w, s, w); }
  }

  lemma ZoomBound(s: real, w: real, zoom: real, buffer: real)
    requires w > 0.0
    ensures s * w <= zoom * buffer <==> s <= zoom * (buffer / w)
  {
    DivBound(s, w, zoom * buffer);
    DivTimes(buffer, w);
    var q := buffer / w;
    assert zoom * buffer == zoom * q * w;
    DivTimes(zoom * buffer, w);
    SameQuotient(zoom * q, zoom * buffer / w, w);
  }

  lemma SameQuotient(a: real, b: real, w: real)
    requires w > 0.0 && a * w == b * w
    ensures a == b
  {
    if a < b { MulLess(a, b, w); } else if b < a { MulLess(b, a, w); }
  }

  lemma BelowMin(s: real, a: real, b: real)
    ensures s <= Min(a, b) <==> s <= a && s <= b
  {
  }

  lemma ZoomMin(zoom: real, a: real, b: real)
    requires zoom > 0.0
    ensures zoom * Min(a, b) == Min(zoom * a, zoom * b)
  {
    if a < b { MulLess(a, b, zoom); } else { MulLeq(b, a, zoom); }
  }

  lemma BelowRatio(s: real, zoom: real, a: Size, b: Size)
    requires b.width >= 1 && b.height >= 1 && zoom > 0.0
    ensures s <= zoom * Ratio(a, b) <==> s * b.width as real <= zoom * a.width as real && s * b.height as real <= zoom * a.height as real
  {
    var x, y := a.width as real / b.width as real, a.height as real / b.height as real;
    ZoomMin(zoom, x, y);
    BelowMin(s, zoom * x, zoom * y);
    ZoomBound(s, b.width as real, zoom, a.width as real);
    ZoomBound(s, b.height as real, zoom, a.height as real);
  }

  lemma BelowSmaller(s: real, a: Size, b: Size)
    requires b.width >= 1 && b.height >= 1
    ensures s <= Ratio(a, b) <==> s * b.width as real <= a.width as real && s * b.height as real <= a.height as real
  {
    BelowMin(s, a.width as real / b.width as real, a.height as real / b.height as real);
    DivBound(s, b.width as real, a.width as real);
    DivBound(s, b.height as real, a.height as real);
  }

  lemma LimitsLargest(s: real, o: Options, r: Region)
    requires r.width >= 1 && r.height >= 1
    ensures FitsLimits(s, o, r) <==> s <= Ratio(Limits(o), Size(r.width, r.height))
  {
    BelowSmaller(s, Limits(o), Size(r.width, r.height));
  }

  lemma ZoomLargest(s: real, region: bool, window: Size, buffer: Size)
    requires window.width >= 1 && window.height >= 1
    ensures FitsZoom(s, region, window, buffer) <==> s <= (if region then 4.0 * Ratio(buffer, window) else Ratio(buffer, window))
  {
    if region { BelowRatio(s, 4.0, buffer, window); } else { BelowSmaller(s, buffer, window); }
  }

  lemma ScaleParts(o: Options, r: Region, window: Size, buffer: Size)
    requires window.width >= 1 && window.height >= 1 && r.width >= 1 && r.height >= 1
    ensures Scale(o, r, window, buffer) ==
      Min(if o.region.Some? then 4.0 * Ratio(buffer, window) else Ratio(buffer, window), Ratio(Limits(o), Size(r.width, r.height)))
  {
    var ratio := Ratio(buffer, window);
    assert 1.0 * ratio == ratio;
  }

  /** The scale is the largest that fits. */
  lemma ScaleLargest(s: real, o: Options, r: Region, window: Size, buffer: Size)
    requires window.width >= 1 && window.height >= 1 && r.width >= 1 && r.height >= 1
    ensures Fits(s, o, r, window, buffer) <==> s <= Scale(o, r, window, buffer)
  {
    ScaleParts(o, r, window, buffer);
    LimitsLargest(s, o, r);
    ZoomLargest(s, o.region.Some?, window, buffer);
    var zoomed := if o.region.Some? then 4.0 * Ratio(buffer, window) else Ratio(buffer, window);
    BelowMin(s, zoomed, Ratio(Limits(o), Size(r.width, r.height)));
  }

  /** A smaller scale gives at most a pixel less than the next one on a side. */
  lemma SideLargest(s: real, scale: real, length: int, limit: int)
    requires length >= 1 && limit >= 1 && 0.0 < scale <= limit as real / length as real && s <= scale
    ensures s * length as real < (Extent(length, scale) + 1) as real
    ensures 1 <= Extent(length, scale) && (Extent(length, scale) == 1 || Extent(length, scale) as real <= scale * length as real)
  {
    ExtentBounded(length, scale, limit);
    MulLeq(s, scale, length as real);
  }

  lemma OutputLargest(o: Options, window: Size, buffer: Size, r: Region)
    requires window.width >= 1 && window.height >= 1 && buffer.width >= 1 && buffer.height >= 1
    requires Bounds(o, window) == Some(r) && r.width >= 1 && r.height >= 1
    ensures Largest(OutputSize(o, window, buffer, r), o, r, window, buffer)
  {
    var scale, limits := Scale(o, r, window, buffer), Limits(o);
    assert limits.width >= 1 && limits.height >= 1 by { BoundsInside(o, window); }
    ScaleWithin(o, window, buffer, r, scale, limits);
    assert Fits(scale, o, r, window, buffer) by { ScaleLargest(scale, o, r, window, buffer); }
    forall s | Fits(s, o, r, window, buffer) ensures s <= scale { ScaleLargest(s, o, r, window, buffer); }
    ExtentsLargest(o, r, window, buffer, scale, limits);
  }

  lemma SidesLargest(s: real, scale: real, r: Region, limits: Size)
    requires r.width >= 1 && r.height >= 1 && limits.width >= 1 && limits.height >= 1 && s <= scale
    requires 0.0 < scale <= limits.width as real / r.width as real && scale <= limits.height as real / r.height as real
    ensures var out := Size(Extent(r.width, scale), Extent(r.height, scale));
      AtMost(out, scale, r) && LessThanOneShort(out, s, r)
  {
    SideLargest(s, scale, r.width, limits.width);
    SideLargest(s, scale, r.height, limits.height);
  }

  lemma ExtentsLargest(o: Options, r: Region, window: Size, buffer: Size, scale: real, limits: Size)
    requires r.width >= 1 && r.height >= 1 && limits.width >= 1 && limits.height >= 1
    requires 0.0 < scale <= limits.width as real / r.width as real && scale <= limits.height as real / r.height as real
    requires Fits(scale, o, r, window, buffer) && forall s :: Fits(s, o, r, window, buffer) ==> s <= scale
    ensures Largest(Size(Extent(r.width, scale), Extent(r.height, scale)), o, r, window, buffer)
  {
    SidesLargest(scale, scale, r, limits);
    forall s | Fits(s, o, r, window, buffer)
      ensures LessThanOneShort(Size(Extent(r.width, scale), Extent(r.height, scale)), s, r)
    {
      SidesLargest(s, scale, r, limits);
    }
  }

  lemma ScaleWithin(o: Options, window: Size, buffer: Size, r: Region, scale: real, limits: Size)
    requires window.width >= 1 && window.height >= 1 && buffer.width >= 1 && buffer.height >= 1
    requires Bounds(o, window) == Some(r) && r.width >= 1 && r.height >= 1
    requires scale == Scale(o, r, window, buffer) && limits == Limits(o)
    ensures 0.0 < scale <= limits.width as real / r.width as real && scale <= limits.height as real / r.height as real
  {
    ScaleBounded(o, window, buffer, r);
  }

  /** The whole crop: for every valid request the output is at least one pixel, within the
      limits and as large as they and the magnification allow, and every output pixel is the
      buffer pixel containing the logical point that the reported transform gives for its
      centre, strictly inside the region. */
  lemma CropIsFaithful(o: Options, window: Size, buffer: Size, r: Region, x: int, y: int)
    requires window.width >= 1 && window.height >= 1 && buffer.width >= 1 && buffer.height >= 1
    requires Bounds(o, window) == Some(r) && r.width >= 1 && r.height >= 1
    ensures var out := OutputSize(o, window, buffer, r);
      && 1 <= out.width <= (if o.maxWidth == 0 then 1280 else o.maxWidth)
      && 1 <= out.height <= (if o.maxHeight == 0 then 1920 else o.maxHeight)
      && Largest(out, o, r, window, buffer)
      && (0 <= x < out.width ==> Faithful(r.x, r.width, out.width, x, buffer.width, window.width))
      && (0 <= y < out.height ==> Faithful(r.y, r.height, out.height, y, buffer.height, window.height))
  {
    OutputBounded(o, window, buffer, r);
    OutputLargest(o, window, buffer, r);
    BoundsInside(o, window);
    var out := OutputSize(o, window, buffer, r);
    if 0 <= x < out.width { SampledContains(r.x, r.width, out.width, x, buffer.width, window.width); }
    if 0 <= y < out.height { SampledContains(r.y, r.height, out.height, y, buffer.height, window.height); }
  }

  /** Along one axis: the logical coordinate of the output pixel's centre lies in this
      buffer pixel. */
  ghost predicate Contains(start: int, length: int, out: int, i: int, buffer: int, window: int, n: int)
    requires out >= 1 && window >= 1
  {
    var centre := start as real + (i as real + 0.5) * (length as real / out as real);
    0 <= n < buffer && n as real <= centre * (buffer as real / window as real) < (n + 1) as real
  }

  /** The output pixel shows the buffer pixel that contains its centre. */
  ghost predicate Shows(image: array2<nat>, src: array2<nat>, r: Region, window: Size, y: int, x: int, py: int, px: int)
    requires window.width >= 1 && window.height >= 1 && 0 <= y < image.Length0 && 0 <= x < image.Length1
    reads image, src
  {
    && Contains(r.y, r.height, image.Length0, y, src.Length0, window.height, py)
    && Contains(r.x, r.width, image.Length1, x, src.Length1, window.width, px)
    && image[y, x] == src[py, px]
  }

  /** The output pixel shows what is at its own place. */
  ghost predicate InPlace(image: array2<nat>, src: array2<nat>, r: Region, window: Size, y: int, x: int)
    requires window.width >= 1 && window.height >= 1 && 0 <= y < image.Length0 && 0 <= x < image.Length1
    reads image, src
  {
    exists py, px :: Shows(image, src, r, window, y, x, py, px)
  }

  /** The image is the crop of `src` that the options ask for: as large as its limits and
      the magnification allow, every pixel showing what is at its own place. */
  ghost predicate IsCrop(dst: array2<nat>, src: array2<nat>, window: Size, o: Options)
    requires window.width >= 1 && window.height >= 1
    reads dst, src
  {
    var r := if o.region.Some? then o.region.value else Region(0, 0, window.width, window.height);
    && 1 <= dst.Length1 <= (if o.maxWidth == 0 then 1280 else o.maxWidth)
    && 1 <= dst.Length0 <= (if o.maxHeight == 0 then 1920 else o.maxHeight)
    && Largest(Size(dst.Length1, dst.Length0), o, r, window, Size(src.Length1, src.Length0))
    && forall y, x :: 0 <= y < dst.Length0 && 0 <= x < dst.Length1 ==> InPlace(dst, src, r, window, y, x)
  }

  lemma SampledInPlace(start: int, length: int, out: int, i: int, buffer: int, window: int)
    requires 0 <= start && length >= 1 && start + length <= window && buffer >= 1 && 0 <= i < out
    ensures Contains(start, length, out, i, buffer, window, Sampled(start, length, out, i, buffer, window))
  {
    SampledContains(start, length, out, i, buffer, window);
  }

  lemma CopiedShows(image: array2<nat>, src: array2<nat>, r: Region, out: Size, window: Size, y: int, x: int)
    requires out.width >= 1 && out.height >= 1 && src.Length0 >= 1 && src.Length1 >= 1
    requires image.Length0 == out.height && image.Length1 == out.width && 0 <= y < out.height && 0 <= x < out.width
    requires 0 <= r.x && 0 <= r.y && r.width >= 1 && r.height >= 1
    requires r.x + r.width <= window.width && r.y + r.height <= window.height
    requires Copied(image, src, r, out, window, y, x)
    ensures InPlace(image, src, r, window, y, x)
  {
    SampledInPlace(r.y, r.height, out.height, y, src.Length0, window.height);
    SampledInPlace(r.x, r.width, out.width, x, src.Length1, window.width);
    assert Shows(image, src, r, window, y, x,
                 Sampled(r.y, r.height, out.height, y, src.Length0, window.height),
                 Sampled(r.x, r.width, out.width, x, src.Length1, window.width));
  }

  /** The crop, once the capture is decoded. Its caller has refused windows without an
      area, for which the scale would divide by zero. */
  method CropImage(src: array2<nat>, window: Size, o: Options) returns (dst: Option<array2<nat>>)
    requires window.width >= 1 && window.height >= 1
    ensures dst.Some? <==>
      && Bounds(o, window).Some?
      && 1 <= src.Length0 <= 8192 && 1 <= src.Length1 <= 8192 && src.Length1 * src.Length0 <= 16777216
    ensures dst.Some? ==> fresh(dst.value) && IsCrop(dst.value, src, window, o)
  {
    var bounds := Bounds(o, window);
    if bounds == None { return None; }
    if src.Length1 < 1 || src.Length0 < 1 || !WithinBudget(Size(src.Length1, src.Length0)) { return None; }
    var r := bounds.value;
    BoundsInside(o, window);
    OutputBounded(o, window, Size(src.Length1, src.Length0), r);
    var out := OutputSize(o, window, Size(src.Length1, src.Length0), r);
    var image := Resample(src, r, out, window);
    OutputLargest(o, window, Size(src.Length1, src.Length0), r);
    forall y, x | 0 <= y < out.height && 0 <= x < out.width ensures InPlace(image, src, r, window, y, x) {
      CopiedShows(image, src, r, out, window, y, x);
    }
    return Some(image);
  }

  /** What a capture comes across: the state of the session before and after the shot, the
      shot itself, None when it fails, and whether the window is unchanged after it. */
  datatype Shooting = Shooting(safeBefore: bool, shot: Option<array2<nat>>, steady: bool, safeAfter: bool)

  predicate CropNeeded(o: Options, shot: array2<nat>) {
    o.region.Some? || shot.Length1 > Limits(o).width || shot.Length0 > Limits(o).height
  }

  /** A capture gives an image within the limits exactly when nothing refuses it: the shot
      as it is when it already fits, and otherwise, or with a region, its crop. */
  method CaptureWithOptions(shown: bool, window: Size, o: Options, s: Shooting) returns (dst: Option<array2<nat>>)
    ensures dst.Some? <==>
      && shown && window.width > 0 && window.height > 0
      && Bounds(o, window).Some?
      && (o.region.Some? ==> window.width <= 8192 && window.height <= 8192 && window.width * window.height <= 16777216)
      && s.safeBefore && s.steady && s.safeAfter
      && s.shot.Some? && s.shot.value.Length1 >= 1 && s.shot.value.Length0 >= 1
      && (CropNeeded(o, s.shot.value) ==>
            s.shot.value.Length1 <= 8192 && s.shot.value.Length0 <= 8192 && s.shot.value.Length1 * s.shot.value.Length0 <= 16777216)
    ensures dst.Some? ==> 1 <= dst.value.Length1 <= (if o.maxWidth == 0 then 1280 else o.maxWidth)
    ensures dst.Some? ==> 1 <= dst.value.Length0 <= (if o.maxHeight == 0 then 1920 else o.maxHeight)
    ensures dst.Some? && o.region.Some? ==> fresh(dst.value) && IsCrop(dst.value, s.shot.value, window, o)
    ensures dst.Some? && o.region.None? ==> dst == s.shot || (fresh(dst.value) && IsCrop(dst.value, s.shot.value, window, o))
    ensures dst.Some? && o.region.None? ==> (dst == s.shot <==>
      && s.shot.value.Length1 <= (if o.maxWidth == 0 then 1280 else o.maxWidth)
      && s.shot.value.Length0 <= (if o.maxHeight == 0 then 1920 else o.maxHeight))
  {
    if !shown || window.width <= 0 || window.height <= 0 { return None; }
    if Bounds(o, window) == None { return None; }
    if o.region.Some? && !WithinBudget(window) { return None; }
    if !s.safeBefore || s.shot == None { return None; }
    if s.shot.value.Length1 < 1 || s.shot.value.Length0 < 1 { return None; }
    if !s.steady || !s.safeAfter { return None; }
    if CropNeeded(o, s.shot.value) {
      dst := CropImage(s.shot.value, window, o);
    } else {
      dst := s.shot;
    }
  }
}
