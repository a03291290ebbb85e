/**
 * Calibration and sizing: choosing the physical length of the scale bar from
 * a fixed catalog of round lengths, and converting it to a length in pixels.
 *
 * Physical lengths are exact reals. The pixel size comes from the instrument
 * metadata in metres per pixel; the catalog is in nanometres.
 */
module ScaleLength {
  import opened Options

  /** The allowed bar lengths, in nanometres, in the source's order. */
  const Catalog: seq<real> := [0.1, 0.2, 0.5, 1.0, 2.0, 5.0, 10.0, 20.0, 50.0, 100.0,
                               200.0, 500.0, 1000.0, 2000.0, 5000.0, 10000.0, 20000.0, 50000.0]

  /** The smallest catalog entry; below it nothing can be selected. */
  const MinLength: real := 0.1

  predicate Ascending(s: seq<real>) {
    forall i, j :: 0 <= i < j < |s| ==> s[i] < s[j]
  }

  /** `length` is the largest catalog entry not exceeding `limit`. */
  ghost predicate IsLargestFit(length: real, limit: real) {
    && length in Catalog
    && length <= limit
    && forall c :: c in Catalog && c <= limit ==> c <= length
  }

  lemma CatalogShape()
    ensures |Catalog| == 18
    ensures Ascending(Catalog)
    ensures Catalog[0] == MinLength
    ensures forall c :: c in Catalog ==> MinLength <= c
  {
  }

  /** The width of one pixel in nanometres: the pixel size in metres times 1e9. */
  function PixelWidthNm(pixelSizeX: real): real {
    pixelSizeX * 1e9
  }

  /**
   * The image's physical width in nanometres: its width in pixels times the
   * pixel width. It is positive exactly when both factors are.
   */
  function ImageWidthNm(widthPx: nat, pixelSizeX: real): (r: real)
    ensures r > 0.0 <==> widthPx > 0 && pixelSizeX > 0.0
  {
    var w, q := widthPx as real, PixelWidthNm(pixelSizeX);
    assert w * q > 0.0 ==> widthPx > 0 && pixelSizeX > 0.0 by {
      if w * q > 0.0 { PositiveProductFactors(w, q); }
    }
    widthPx as real * PixelWidthNm(pixelSizeX)
  }

  /**
   * The boolean-mask filter `options[options <= limit]`: the entries not
   * exceeding `limit`, in their original order.
   */
  function Eligible(options: seq<real>, limit: real): (r: seq<real>)
    ensures |r| <= |options|
    ensures forall x :: x in r <==> x in options && x <= limit
    ensures Ascending(options) ==> Ascending(r)
  {
    if options == [] then []
    else
      var rest := Eligible(options[1..], limit);
      assert forall x :: x in options[1..] ==> x in options;
      if options[0] <= limit then
        assert Ascending(options) ==> forall x :: x in rest ==> options[0] < x by {
          if Ascending(options) {
            forall x | x in rest ensures options[0] < x {
              var k :| 1 <= k < |options| && options[k] == x;
            }
          }
        }
        var r := [options[0]] + rest;
        assert Ascending(options) ==> Ascending(r) by {
          if Ascending(options) {
            forall i, j | 0 <= i < j < |r| ensures r[i] < r[j] {
              assert r[j] == rest[j - 1] && r[j] in rest;
              if i > 0 { assert r[i] == rest[i - 1]; }
            }
          }
        }
        r
      else rest
  }

  /** The last element of an ascending sequence is its largest. */
  lemma LastIsLargest(s: seq<real>)
    requires Ascending(s) && s != []
    ensures forall x :: x in s ==> x <= s[|s| - 1]
  {
  }

  /**
   * The selection of the bar length from a threshold in nanometres: the last
   * of the eligible catalog entries, or a failure where the source indexes an
   * empty array with `[-1]`.
   */
  function SelectFromLimit(limit: real): (r: Option<real>)
    ensures r.Some? <==> MinLength <= limit
    ensures r.Some? ==> IsLargestFit(r.value, limit)
  {
    CatalogShape();
    var eligible := Eligible(Catalog, limit);
    if eligible == [] then
      assert MinLength !in eligible;
      None
    else
      assert eligible[0] in eligible;
      LastIsLargest(eligible);
      Some(eligible[|eligible| - 1])
  }

  /**
   * The bar length for an image `widthPx` pixels wide whose pixels are
   * `pixelSizeX` metres wide: the largest catalog entry not exceeding one
   * tenth of the image's physical width.
   */
  function SelectScaleLength(widthPx: nat, pixelSizeX: real): (r: Option<real>)
    ensures r.Some? <==> MinLength <= ImageWidthNm(widthPx, pixelSizeX) / 10.0
    ensures r.Some? ==> IsLargestFit(r.value, ImageWidthNm(widthPx, pixelSizeX) / 10.0)
  {
    SelectFromLimit(ImageWidthNm(widthPx, pixelSizeX) / 10.0)
  }

  /** At most one catalog entry is the largest fit for a threshold. */
  lemma LargestFitUnique(a: real, b: real, limit: real)
    requires IsLargestFit(a, limit) && IsLargestFit(b, limit)
    ensures a == b
  {
  }

  /** A successful selection implies a non-empty image and a positive pixel size. */
  lemma SelectionNeedsPositiveCalibration(widthPx: nat, pixelSizeX: real)
    requires SelectScaleLength(widthPx, pixelSizeX).Some?
    ensures widthPx > 0 && pixelSizeX > 0.0
  {
    WideEnoughNeedsPositiveCalibration(widthPx, pixelSizeX);
  }

  /** One tenth of the width can reach the smallest catalog length only with a positive calibration. */
  lemma WideEnoughNeedsPositiveCalibration(widthPx: nat, pixelSizeX: real)
    requires MinLength <= ImageWidthNm(widthPx, pixelSizeX) / 10.0
    ensures widthPx > 0 && pixelSizeX > 0.0
  {
    PositiveProductFactors(widthPx as real, PixelWidthNm(pixelSizeX));
  }

  lemma PositiveProductFactors(a: real, b: real)
    requires 0.0 <= a && 0.0 < a * b
    ensures 0.0 < a && 0.0 < b
  {
  }

  /** A larger threshold never selects a shorter length, nor fails where a smaller one succeeds. */
  lemma SelectionMonotone(limit1: real, limit2: real)
    requires limit1 <= limit2
    requires SelectFromLimit(limit1).Some?
    ensures SelectFromLimit(limit2).Some?
    ensures SelectFromLimit(limit1).value <= SelectFromLimit(limit2).value
  {
    var l1 := SelectFromLimit(limit1).value;
    assert l1 in Catalog && l1 <= limit2;
  }

  /** For a fixed pixel size, a wider image never selects a shorter length. */
  lemma WiderImageNeverShorter(widthPx1: nat, widthPx2: nat, pixelSizeX: real)
    requires widthPx1 <= widthPx2
    requires SelectScaleLength(widthPx1, pixelSizeX).Some?
    ensures SelectScaleLength(widthPx2, pixelSizeX).Some?
    ensures SelectScaleLength(widthPx1, pixelSizeX).value <= SelectScaleLength(widthPx2, pixelSizeX).value
  {
    SelectionNeedsPositiveCalibration(widthPx1, pixelSizeX);
    ImageWidthMonotone(widthPx1, widthPx2, pixelSizeX);
    SelectionMonotone(ImageWidthNm(widthPx1, pixelSizeX) / 10.0, ImageWidthNm(widthPx2, pixelSizeX) / 10.0);
  }

  lemma ImageWidthMonotone(widthPx1: nat, widthPx2: nat, pixelSizeX: real)
    requires widthPx1 <= widthPx2 && pixelSizeX > 0.0
    ensures ImageWidthNm(widthPx1, pixelSizeX) <= ImageWidthNm(widthPx2, pixelSizeX)
  {
    ScaleMonotone(widthPx1 as real, widthPx2 as real, PixelWidthNm(pixelSizeX));
  }

  lemma ScaleMonotone(a: real, b: real, q: real)
    requires a <= b && 0.0 <= q
    ensures a * q <= b * q
  {
  }

  lemma ScaleStrictlyMonotone(a: real, b: real, q: real)
    requires a < b && 0.0 < q
    ensures a * q < b * q
  {
  }

  /**
   * The bar length in pixels: the physical length divided by the width of a
   * pixel in nanometres. The source reaches this division only after a
   * successful selection, which needs a positive pixel size
   * (`SelectionNeedsPositiveCalibration`).
   */
  function LengthInPixels(lengthNm: real, pixelSizeX: real): (r: real)
    requires pixelSizeX != 0.0
    ensures r * PixelWidthNm(pixelSizeX) == lengthNm
    ensures lengthNm > 0.0 && pixelSizeX > 0.0 ==> r > 0.0
  {
    lengthNm / PixelWidthNm(pixelSizeX)
  }

  /** For a fixed calibration, a longer physical length is a longer bar in pixels. */
  lemma LengthInPixelsMonotone(length1: real, length2: real, pixelSizeX: real)
    requires pixelSizeX > 0.0 && length1 < length2
    ensures LengthInPixels(length1, pixelSizeX) < LengthInPixels(length2, pixelSizeX)
  {
    var q := PixelWidthNm(pixelSizeX);
    var r1, r2 := LengthInPixels(length1, pixelSizeX), LengthInPixels(length2, pixelSizeX);
    if r2 <= r1 {
      ScaleMonotone(r2, r1, q);
      assert false;
    }
  }

  /**
   * The selected bar is a positive number of pixels, converts back to the
   * selected physical length, and spans at most one tenth of the image width.
   */
  lemma SelectedBarFitsTenth(widthPx: nat, pixelSizeX: real)
    requires SelectScaleLength(widthPx, pixelSizeX).Some?
    ensures pixelSizeX > 0.0
    ensures var px := LengthInPixels(SelectScaleLength(widthPx, pixelSizeX).value, pixelSizeX);
      && 0.0 < px
      && px * PixelWidthNm(pixelSizeX) == SelectScaleLength(widthPx, pixelSizeX).value
      && px <= widthPx as real / 10.0
  {
    SelectionNeedsPositiveCalibration(widthPx, pixelSizeX);
    CatalogShape();
    PixelsWithinTenth(SelectScaleLength(widthPx, pixelSizeX).value, widthPx, pixelSizeX);
  }

  lemma PixelsWithinTenth(lengthNm: real, widthPx: nat, pixelSizeX: real)
    requires pixelSizeX > 0.0 && lengthNm <= ImageWidthNm(widthPx, pixelSizeX) / 10.0
    ensures LengthInPixels(lengthNm, pixelSizeX) <= widthPx as real / 10.0
  {
    var q := PixelWidthNm(pixelSizeX);
    var px := LengthInPixels(lengthNm, pixelSizeX);
    var tenth := widthPx as real / 10.0;
    assert ImageWidthNm(widthPx, pixelSizeX) / 10.0 == tenth * q;
    assert px * q == lengthNm && lengthNm <= tenth * q && 0.0 < q;
    if px > tenth {
      ScaleStrictlyMonotone(tenth, px, q);
      assert false;
    }
  }
}
