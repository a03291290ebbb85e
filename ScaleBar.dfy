/**
 * The scale bar of one image: sizing, layout and label together, as the
 * per-file body of the batch loop computes them before drawing.
 */
module ScaleBar {
  import opened Options
  import opened ScaleLength
  import opened Layout
  import opened Label

  /** Everything the renderer is asked to draw for one image. */
  datatype ScaleBarSpec = ScaleBarSpec(
    lengthNm: real, lengthPx: real, placement: Placement, reading: Reading, text: string)

  /**
   * The scale bar for an image `widthPx` by `heightPx` pixels whose pixels
   * are `pixelSizeX` metres wide. It fails exactly where the source indexes
   * an empty array: when one tenth of the image's width is below the
   * smallest catalog length, which includes every non-positive pixel size.
   */
  function ComputeScaleBar(widthPx: nat, heightPx: nat, pixelSizeX: real): (r: Option<ScaleBarSpec>)
    ensures r.Some? <==> MinLength <= ImageWidthNm(widthPx, pixelSizeX) / 10.0
    ensures r.Some? ==> pixelSizeX > 0.0
    ensures r.Some? ==>
      var bar := r.value;
      && IsLargestFit(bar.lengthNm, ImageWidthNm(widthPx, pixelSizeX) / 10.0)
      && 0.0 < bar.lengthPx <= widthPx as real / 10.0
      && bar.lengthPx == LengthInPixels(bar.lengthNm, pixelSizeX)
      && bar.placement == Place(widthPx, heightPx, bar.lengthPx)
      && bar.reading == ReadingOf(bar.lengthNm)
      && Some(bar.text) == LabelText(bar.lengthNm)
      && ParseLabel(bar.text) == Some(bar.lengthNm)
  {
    var selected := SelectScaleLength(widthPx, pixelSizeX);
    if selected.None? then None
    else
      SelectedBarFitsTenth(widthPx, pixelSizeX);
      LabelRoundTrip(selected.value);
      var lengthPx := LengthInPixels(selected.value, pixelSizeX);
      Some(ScaleBarSpec(selected.value, lengthPx, Place(widthPx, heightPx, lengthPx),
                        ReadingOf(selected.value), LabelText(selected.value).value))
  }

  /** A 2000 px wide image at 5 nm per pixel gets a 1 µm bar, 200 px long. */
  lemma WideImageScenario(heightPx: nat)
    ensures ComputeScaleBar(2000, heightPx, 5e-9).Some?
    ensures var bar := ComputeScaleBar(2000, heightPx, 5e-9).value;
      && bar.lengthNm == 1000.0
      && bar.lengthPx == 200.0
      && bar.text == "1 µm"
  {
    var widthPx, pixelSizeX := 2000, 5e-9;
    assert PixelWidthNm(pixelSizeX) == 5.0;
    var limit := ImageWidthNm(widthPx, pixelSizeX) / 10.0;
    assert limit == 1000.0;
    var bar := ComputeScaleBar(widthPx, heightPx, pixelSizeX).value;
    LargestFitUnique(bar.lengthNm, 1000.0, limit);
    CatalogLabels();
  }

  /** A 100 px wide image at 1 nm per pixel gets a 10 nm bar, 10 px long. */
  lemma NarrowImageScenario(heightPx: nat)
    ensures ComputeScaleBar(100, heightPx, 1e-9).Some?
    ensures var bar := ComputeScaleBar(100, heightPx, 1e-9).value;
      && bar.lengthNm == 10.0
      && bar.lengthPx == 10.0
      && bar.text == "10 nm"
  {
    var widthPx, pixelSizeX := 100, 1e-9;
    assert PixelWidthNm(pixelSizeX) == 1.0;
    var limit := ImageWidthNm(widthPx, pixelSizeX) / 10.0;
    assert limit == 10.0;
    var bar := ComputeScaleBar(widthPx, heightPx, pixelSizeX).value;
    LargestFitUnique(bar.lengthNm, 10.0, limit);
    assert LengthInPixels(10.0, pixelSizeX) == 10.0;
    CatalogLabels();
  }

  /** An image whose tenth is narrower than 0.1 nm gets no scale bar. */
  lemma TooSmallScenario(heightPx: nat)
    ensures ComputeScaleBar(9, heightPx, 1e-10).None?
  {
    var widthPx, pixelSizeX := 9, 1e-10;
    assert ImageWidthNm(widthPx, pixelSizeX) / 10.0 == 0.09;
  }
}
