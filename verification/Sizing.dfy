/** The geometry of resizes and thumbnails: integer rounding to the nearest
    pixel, clamped to at least one. */
module Sizing {
  import opened Wrappers
  import opened Domain

  datatype SizeError = EmptySource | NoTargetSize | InvalidMaxDimension

  datatype Size = Size(width: int, height: int)

  type Sized = Result<Size, SizeError>

  function ScaleDimension(value: int, reference: int, target: int): int
    requires reference > 0
  {
    (value * target + reference / 2) / reference
  }

  function AtLeastOne(v: int): int {
    if v < 1 then 1 else v
  }

  function TargetSize(srcW: int, srcH: int, wantW: int, wantH: int, keepAspect: bool): Sized {
    if srcW <= 0 || srcH <= 0 then Failure(EmptySource)
    else if wantW <= 0 && wantH <= 0 then Failure(NoTargetSize)
    else if wantW <= 0 then
      Success(Size(AtLeastOne(ScaleDimension(srcW, srcH, wantH)), AtLeastOne(wantH)))
    else if wantH <= 0 then
      Success(Size(AtLeastOne(wantW), AtLeastOne(ScaleDimension(srcH, srcW, wantW))))
    else if !keepAspect then
      Success(Size(AtLeastOne(wantW), AtLeastOne(wantH)))
    else if srcW * wantH <= srcH * wantW then
      Success(Size(AtLeastOne(ScaleDimension(srcW, srcH, wantH)), AtLeastOne(wantH)))
    else
      Success(Size(AtLeastOne(wantW), AtLeastOne(ScaleDimension(srcH, srcW, wantW))))
  }

  function ThumbnailSize(srcW: int, srcH: int, maxDim: int): Sized {
    if srcW <= 0 || srcH <= 0 then Failure(EmptySource)
    else if maxDim <= 0 then Failure(InvalidMaxDimension)
    else if srcW <= maxDim && srcH <= maxDim then Success(Size(srcW, srcH))
    else if srcW >= srcH then Success(Size(maxDim, AtLeastOne(ScaleDimension(srcH, srcW, maxDim))))
    else Success(Size(AtLeastOne(ScaleDimension(srcW, srcH, maxDim)), maxDim))
  }

  // ------------------------------------------------------------- rounding

  lemma MulMono(a: int, b: int, c: int)
    requires a <= b && c >= 0
    ensures a * c <= b * c
  {
  }

  lemma Cancel(r: int, a: int, b: int)
    requires r > 0 && r * a < r * b + r
    ensures a <= b
  {
    assert r * (b + 1) == r * b + r;
    if a > b {
      MulMono(b + 1, a, r);
    }
  }

  lemma QuotientBounds(a: int, r: int)
    requires r > 0
    ensures r * (a / r) <= a < r * (a / r) + r
  {
    assert a == r * (a / r) + a % r;
  }

  /** Scaling is exact to within half a pixel. */
  lemma ScaleRounds(value: int, reference: int, target: int)
    requires reference > 0
    ensures var s := ScaleDimension(value, reference, target);
            -reference <= 2 * (value * target - reference * s) <= reference
  {
    QuotientBounds(value * target + reference / 2, reference);
  }

  // A whole lower or upper bound of the exact ratio bounds the rounded one.
  lemma ScaleAtLeast(value: int, reference: int, target: int, low: int)
    requires reference > 0 && reference * low <= value * target
    ensures low <= ScaleDimension(value, reference, target)
  {
    var a := value * target + reference / 2;
    QuotientBounds(a, reference);
    Cancel(reference, low, a / reference);
  }

  lemma ScaleAtMost(value: int, reference: int, target: int, high: int)
    requires reference > 0 && value * target <= reference * high
    ensures ScaleDimension(value, reference, target) <= high
  {
    var a := value * target + reference / 2;
    QuotientBounds(a, reference);
    Cancel(reference, a / reference, high);
  }

  lemma ScaleIs(value: int, reference: int, target: int, exact: int)
    requires reference > 0 && value * target == reference * exact
    ensures ScaleDimension(value, reference, target) == exact
  {
    ScaleAtLeast(value, reference, target, exact);
    ScaleAtMost(value, reference, target, exact);
  }

  lemma ScaleMonotone(value: int, reference: int, t: int, u: int)
    requires reference > 0 && value >= 0 && t <= u
    ensures ScaleDimension(value, reference, t) <= ScaleDimension(value, reference, u)
  {
    MulMono(t, u, value);
    var a, b := value * t + reference / 2, value * u + reference / 2;
    QuotientBounds(a, reference);
    QuotientBounds(b, reference);
    Cancel(reference, a / reference, b / reference);
  }

  // ------------------------------------------------------------ fit in box

  predicate Positive(srcW: int, srcH: int, wantW: int, wantH: int) {
    srcW > 0 && srcH > 0 && wantW > 0 && wantH > 0
  }

  function Fit(srcW: int, srcH: int, wantW: int, wantH: int): Size
    requires Positive(srcW, srcH, wantW, wantH)
  {
    TargetSize(srcW, srcH, wantW, wantH, true).value
  }

  /** The result lies in the requested box and touches a side of it. */
  lemma FitInBox(srcW: int, srcH: int, wantW: int, wantH: int)
    requires Positive(srcW, srcH, wantW, wantH)
    ensures
      var r := Fit(srcW, srcH, wantW, wantH);
      && 1 <= r.width <= wantW && 1 <= r.height <= wantH
      && (r.width == wantW || r.height == wantH)
  {
    if srcW * wantH <= srcH * wantW {
      ScaleAtMost(srcW, srcH, wantH, wantW);
    } else {
      ScaleAtMost(srcH, srcW, wantW, wantH);
    }
  }

  // The side is within half a pixel of value * target / reference, or that is
  // itself below half a pixel and the side is the one pixel an image needs.
  predicate Nearest(side: int, value: int, reference: int, target: int) {
    || -reference <= 2 * (value * target - reference * side) <= reference
    || (side == 1 && 2 * value * target < reference)
  }

  /** The side that does not touch the box has the source ratio to the nearest
      pixel. */
  lemma FitKeepsRatio(srcW: int, srcH: int, wantW: int, wantH: int)
    requires Positive(srcW, srcH, wantW, wantH)
    ensures
      var r := Fit(srcW, srcH, wantW, wantH);
      if srcW * wantH <= srcH * wantW then
        r.height == wantH && Nearest(r.width, srcW, srcH, wantH)
      else
        r.width == wantW && Nearest(r.height, srcH, srcW, wantW)
  {
    ScaleNearest(srcW, srcH, wantH);
    ScaleNearest(srcH, srcW, wantW);
  }

  lemma ScaleNearest(value: int, reference: int, target: int)
    requires reference > 0 && value >= 0 && target >= 0
    ensures Nearest(AtLeastOne(ScaleDimension(value, reference, target)), value, reference, target)
  {
    var a := value * target + reference / 2;
    ScaleRounds(value, reference, target);
    MulMono(0, value, target);
    QuotientBounds(a, reference);
    if a / reference < 1 {
      Cancel(reference, 0, a / reference);
      assert a < reference;
    }
  }

  /** One side given: it is kept, and the other has the source ratio to the
      nearest pixel. */
  lemma DerivedKeepsRatio(srcW: int, srcH: int, want: int, other: int, keepAspect: bool)
    requires srcW > 0 && srcH > 0 && want > 0 && other <= 0
    ensures var r := TargetSize(srcW, srcH, want, other, keepAspect);
            r.Success? && r.value.width == want && Nearest(r.value.height, srcH, srcW, want)
    ensures var r := TargetSize(srcW, srcH, other, want, keepAspect);
            r.Success? && r.value.height == want && Nearest(r.value.width, srcW, srcH, want)
  {
    ScaleNearest(srcH, srcW, want);
    ScaleNearest(srcW, srcH, want);
  }

  /** Both sides given and no ratio to keep: they are the result. And a size is
      refused exactly for an empty source, or for a request without a side. */
  lemma TargetAnswers(srcW: int, srcH: int, wantW: int, wantH: int, keepAspect: bool)
    ensures
      var r := TargetSize(srcW, srcH, wantW, wantH, keepAspect);
      && (r == Failure(EmptySource) <==> srcW <= 0 || srcH <= 0)
      && (r == Failure(NoTargetSize) <==> srcW > 0 && srcH > 0 && wantW <= 0 && wantH <= 0)
      && r != Failure(InvalidMaxDimension)
      && (Positive(srcW, srcH, wantW, wantH) && !keepAspect ==> r == Success(Size(wantW, wantH)))
  {
  }

  function Transposed(s: Size): Size {
    Size(s.height, s.width)
  }

  /** Swapping width and height of the source and of the request swaps those of
      the result, for every kind of request. */
  lemma TargetTransposes(srcW: int, srcH: int, wantW: int, wantH: int, keepAspect: bool)
    ensures
      var r := TargetSize(srcW, srcH, wantW, wantH, keepAspect);
      var t := TargetSize(srcH, srcW, wantH, wantW, keepAspect);
      t == if r.Success? then Success(Transposed(r.value)) else r
  {
    if Positive(srcW, srcH, wantW, wantH) && srcW * wantH == srcH * wantW {
      ScaleIs(srcW, srcH, wantH, wantW);
      ScaleIs(srcH, srcW, wantW, wantH);
    }
  }

  /** A wider box never makes the result narrower or lower, also where the
      binding side changes. */
  lemma FitMonotoneWidth(srcW: int, srcH: int, wantW: int, wider: int, wantH: int)
    requires Positive(srcW, srcH, wantW, wantH) && wantW <= wider
    ensures
      var r, s := Fit(srcW, srcH, wantW, wantH), Fit(srcW, srcH, wider, wantH);
      r.width <= s.width && r.height <= s.height
  {
    MulMono(wantW, wider, srcH);
    FitInBox(srcW, srcH, wantW, wantH);
    if srcW * wantH > srcH * wantW {
      if srcW * wantH <= srcH * wider {
        ScaleAtLeast(srcW, srcH, wantH, wantW);
      } else {
        ScaleMonotone(srcH, srcW, wantW, wider);
      }
    }
  }

  /** And the same for a taller box, by transposition. */
  lemma FitMonotoneHeight(srcW: int, srcH: int, wantW: int, wantH: int, taller: int)
    requires Positive(srcW, srcH, wantW, wantH) && wantH <= taller
    ensures
      var r, s := Fit(srcW, srcH, wantW, wantH), Fit(srcW, srcH, wantW, taller);
      r.width <= s.width && r.height <= s.height
  {
    FitMonotoneWidth(srcH, srcW, wantH, taller, wantW);
    TargetTransposes(srcW, srcH, wantW, wantH, true);
    TargetTransposes(srcW, srcH, wantW, taller, true);
  }

  // A size that already touches the box from inside is left alone.
  lemma FitFixed(w: int, h: int, wantW: int, wantH: int)
    requires 1 <= w <= wantW && 1 <= h <= wantH && (w == wantW || h == wantH)
    ensures Fit(w, h, wantW, wantH) == Size(w, h)
  {
    if h == wantH {
      MulMono(w, wantW, wantH);
      ScaleIs(w, h, h, w);
    } else {
      MulMono(h + 1, wantH, wantW);
      assert (h + 1) * wantW == h * wantW + wantW;
      ScaleIs(h, w, w, h);
    }
  }

  /** Resizing a resized image again with the same request changes nothing, for
      every kind of request. */
  lemma TargetIdempotent(srcW: int, srcH: int, wantW: int, wantH: int, keepAspect: bool)
    requires TargetSize(srcW, srcH, wantW, wantH, keepAspect).Success?
    ensures
      var r := TargetSize(srcW, srcH, wantW, wantH, keepAspect).value;
      TargetSize(r.width, r.height, wantW, wantH, keepAspect) == Success(r)
  {
    var r := TargetSize(srcW, srcH, wantW, wantH, keepAspect).value;
    if wantW <= 0 {
      ScaleIs(r.width, wantH, wantH, r.width);
    } else if wantH <= 0 {
      ScaleIs(r.height, wantW, wantW, r.height);
    } else if keepAspect {
      FitInBox(srcW, srcH, wantW, wantH);
      FitFixed(r.width, r.height, wantW, wantH);
    }
  }

  // A side derived at a ratio stays within a limit exactly when the exact value
  // is less than half a pixel above it.
  lemma ScaleWithin(value: int, reference: int, target: int, limit: int)
    requires value > 0 && reference > 0 && target > 0 && limit >= 1
    ensures AtLeastOne(ScaleDimension(value, reference, target)) <= limit <==>
            2 * (value * target) < (2 * limit + 1) * reference
  {
    var half := reference / 2;
    var a := value * target + half;
    assert 2 * half <= reference <= 2 * half + 1;
    assert (2 * limit + 1) * reference == 2 * (reference * limit) + reference;
    QuotientWithin(a, reference, limit);
  }

  lemma QuotientWithin(a: int, r: int, limit: int)
    requires r > 0
    ensures a / r <= limit <==> a < r * limit + r
  {
    QuotientBounds(a, r);
    if a / r <= limit {
      MulMono(a / r, limit, r);
    } else {
      MulMono(limit + 1, a / r, r);
      assert (limit + 1) * r == r * limit + r;
    }
  }

  /** A 1 x 20000 source one pixel wide stays 20000 high. */
  lemma DerivedBeyondMaximum()
    ensures TargetSize(1, 20000, 1, 0, true) == Success(Size(1, 20000)) && 20000 > MAX_DIMENSION
  {
    ScaleIs(20000, 1, 1, 20000);
  }

  /** A derived side, of either kind, is not bounded by the largest dimension a
      request may name: it is within the bound exactly when the exact ratio is
      less than half a pixel above it. */
  lemma DerivedWithinMaximum(srcW: int, srcH: int, want: int)
    requires srcW > 0 && srcH > 0 && 0 < want <= MAX_DIMENSION
    ensures TargetSize(srcW, srcH, want, 0, true).value.height <= MAX_DIMENSION <==>
            2 * (srcH * want) < (2 * MAX_DIMENSION + 1) * srcW
    ensures TargetSize(srcW, srcH, 0, want, true).value.width <= MAX_DIMENSION <==>
            2 * (srcW * want) < (2 * MAX_DIMENSION + 1) * srcH
  {
    ScaleWithin(srcH, srcW, want, MAX_DIMENSION);
    ScaleWithin(srcW, srcH, want, MAX_DIMENSION);
  }

  // ------------------------------------------------------------ thumbnails

  /** A thumbnail never exceeds its bound or either side of the source, has its
      longest side exactly at the bound when the source exceeds it, keeps the
      orientation, and is otherwise the source itself. */
  lemma ThumbnailBounds(srcW: int, srcH: int, maxDim: int)
    requires srcW > 0 && srcH > 0 && maxDim > 0
    ensures
      var r := ThumbnailSize(srcW, srcH, maxDim);
      && r.Success?
      && 1 <= r.value.width <= maxDim && r.value.width <= srcW
      && 1 <= r.value.height <= maxDim && r.value.height <= srcH
      && (srcW <= maxDim && srcH <= maxDim ==> r.value == Size(srcW, srcH))
      && (srcW > maxDim || srcH > maxDim ==>
            (if srcW >= srcH then r.value.width else r.value.height) == maxDim)
      && (srcW >= srcH ==> r.value.width >= r.value.height)
      && (srcW <= srcH ==> r.value.width <= r.value.height)
  {
    if srcW > maxDim || srcH > maxDim {
      if srcW >= srcH {
        MulMono(srcH, srcW, maxDim);
        MulMono(maxDim, srcW, srcH);
        ScaleAtMost(srcH, srcW, maxDim, maxDim);
        ScaleAtMost(srcH, srcW, maxDim, srcH);
        if srcW == srcH {
          ScaleIs(srcH, srcW, maxDim, maxDim);
        }
      } else {
        MulMono(srcW, srcH, maxDim);
        MulMono(maxDim, srcH, srcW);
        ScaleAtMost(srcW, srcH, maxDim, maxDim);
        ScaleAtMost(srcW, srcH, maxDim, srcW);
      }
    }
  }

  /** The short side of a thumbnail has the source ratio to the nearest pixel. And
      a thumbnail is refused exactly for an empty source or an impossible bound. */
  lemma ThumbnailKeepsRatio(srcW: int, srcH: int, maxDim: int)
    ensures
      var r := ThumbnailSize(srcW, srcH, maxDim);
      && (r == Failure(EmptySource) <==> srcW <= 0 || srcH <= 0)
      && (r == Failure(InvalidMaxDimension) <==> srcW > 0 && srcH > 0 && maxDim <= 0)
      && (srcW > 0 && srcH > 0 && maxDim > 0 && (srcW > maxDim || srcH > maxDim) ==>
            && r.Success?
            && (if srcW >= srcH then Nearest(r.value.height, srcH, srcW, maxDim)
                else Nearest(r.value.width, srcW, srcH, maxDim)))
  {
    if srcW > 0 && srcH > 0 && maxDim > 0 {
      ScaleNearest(srcH, srcW, maxDim);
      ScaleNearest(srcW, srcH, maxDim);
    }
  }

  lemma ThumbnailTransposes(srcW: int, srcH: int, maxDim: int)
    ensures
      var r, t := ThumbnailSize(srcW, srcH, maxDim), ThumbnailSize(srcH, srcW, maxDim);
      t == if r.Success? then Success(Transposed(r.value)) else r
  {
    if srcW == srcH && srcW > maxDim > 0 {
      ScaleIs(srcW, srcH, maxDim, maxDim);
    }
  }

  lemma ThumbnailIdempotent(srcW: int, srcH: int, maxDim: int)
    requires ThumbnailSize(srcW, srcH, maxDim).Success?
    ensures
      var r := ThumbnailSize(srcW, srcH, maxDim).value;
      ThumbnailSize(r.width, r.height, maxDim) == Success(r)
  {
    ThumbnailBounds(srcW, srcH, maxDim);
  }

  // ---------------------------------------------------------- 64-bit ranges

  const MAX_INT64 := 0x7fff_ffff_ffff_ffff
  const MAX_SIDE := 0x8000_0000

  predicate InInt64(v: int) {
    -MAX_INT64 - 1 <= v <= MAX_INT64
  }

  /** No intermediate of either computation leaves 64 bits: neither the products
      compared to choose a side nor anything inside the scaling. */
  lemma NoOverflow(srcW: int, srcH: int, wantW: int, wantH: int)
    requires 0 < srcW < MAX_SIDE && 0 < srcH < MAX_SIDE
    requires 0 <= wantW <= MAX_DIMENSION && 0 <= wantH <= MAX_DIMENSION
    ensures InInt64(srcW * wantH) && InInt64(srcH * wantW)
    ensures InInt64(srcW * wantH + srcH / 2) && InInt64(srcH * wantW + srcW / 2)
    ensures InInt64(srcW * wantW + srcH / 2) && InInt64(srcH * wantH + srcW / 2)
    ensures InInt64(ScaleDimension(srcW, srcH, wantH)) && InInt64(ScaleDimension(srcH, srcW, wantW))
  {
    ProductRange(srcW, wantH);
    ProductRange(srcW, wantW);
    ProductRange(srcH, wantH);
    ProductRange(srcH, wantW);
    ScaleAtMost(srcW, srcH, wantH, srcW * wantH) by {
      MulMono(1, srcH, srcW * wantH);
    }
    ScaleAtMost(srcH, srcW, wantW, srcH * wantW) by {
      MulMono(1, srcW, srcH * wantW);
    }
    ScaleAtLeast(srcW, srcH, wantH, 0);
    ScaleAtLeast(srcH, srcW, wantW, 0);
  }

  lemma ProductRange(a: int, b: int)
    requires 0 <= a < MAX_SIDE && 0 <= b <= MAX_DIMENSION
    ensures 0 <= a * b <= MAX_SIDE * MAX_DIMENSION
  {
    MulMono(a, MAX_SIDE, b);
    MulMono(b, MAX_DIMENSION, MAX_SIDE);
  }
}
