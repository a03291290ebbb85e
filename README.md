# Olympus scale-bar annotation: sizing, layout and label

This project models the per-image arithmetic of `add_scale_bar_to_images` in
`olympus-image-scalebar-annotation.py`. That arithmetic turns an Olympus TIFF
image and its calibration into a scale bar. The model covers four steps:

- **Length selection** (`ScaleLength`). The image's physical width is its
  pixel width times the pixel size (metres per pixel) times 1e9. The bar
  length is the largest entry of the fixed 18-entry catalog
  0.1 nm … 50000 nm that does not exceed one tenth of that width. The source
  filters the catalog with a boolean mask and takes the last survivor
  (`Eligible`, then `SelectFromLimit`). When nothing survives, the source
  indexes an empty array and raises. The model returns `None` instead.
- **Pixel length** (`ScaleLength.LengthInPixels`). The bar's length in pixels
  is the physical length divided by the pixel width in nanometres. It is an
  unrounded real.
- **Layout** (`Layout`). The bar height is 0.35 % of the image height,
  truncated, with a floor of 2 px. The font size is 2 % of the height,
  truncated, with a floor of 8. Positions are matplotlib data coordinates,
  in which whole numbers are pixel centres: the origin is the centre of the
  top-left pixel, so the image spans −0.5 … w−0.5 across and −0.5 … h−0.5
  down. The bar's right edge is at w − 20 and its bottom edge at h − 20,
  which is 19.5 px inside the image's right and bottom edges. The label
  anchor is the middle of the text's bottom edge: centred over the bar and
  font_size/2 pixels above the bar's top. The font size is in points, but
  the source subtracts half of it from a pixel coordinate as it is.
- **Label** (`Label`). Lengths from 1000 nm up are shown in micrometres
  (`µm`) as length/1000. Shorter lengths are shown in nanometres (`nm`)
  unchanged. The label text is `"<value> <unit>"`.

`ScaleBar.ComputeScaleBar` puts the four steps together for one image.

Physical quantities are exact `real`s. Python's `int()` of a non-negative
product is modelled as integer division: `h*35/10000` and `h/50`. The
contracts tie that division to the truncation of the real products
`h × 0.0035` and `h × 0.02`. The IEEE doubles nearest 0.0035 and 0.02 are
both slightly above the decimal values, so for integer heights the float
`int()` gives the same result as the exact truncation.

Three behaviours of the code differ from what its purpose suggests; the model
follows the code:

- The bar height and font size use `int()`, which truncates. They do not use
  rounding.
- No check rejects non-positive image dimensions. The layout is computed for
  any height and width, and the bar's top edge can then lie above the image.
- No check rejects a non-positive pixel size. Such a size makes the filtered
  catalog empty, so selection fails, and `SelectionNeedsPositiveCalibration`
  proves this.

## Model

| member | source | states |
|---|---|---|
| ScaleLength.CatalogShape | olympus-image-scalebar-annotation.py:30 | the catalog has 18 strictly ascending entries; its first and smallest is 0.1 nm |
| ScaleLength.ImageWidthNm | olympus-image-scalebar-annotation.py:28 | the physical width is width in pixels × pixel size × 1e9, and it is positive exactly when both the pixel width and the pixel size are positive |
| ScaleLength.Eligible | olympus-image-scalebar-annotation.py:31 | the mask filter keeps exactly the entries not above the threshold, never adds any, and keeps an ascending input ascending |
| ScaleLength.SelectFromLimit | olympus-image-scalebar-annotation.py:31 | selection succeeds iff the threshold is at least 0.1 nm, and then yields a catalog entry not above the threshold that is at least every other such entry |
| ScaleLength.SelectScaleLength | olympus-image-scalebar-annotation.py:28-31 | the bar length is the largest catalog entry not above one tenth of width × pixel size × 1e9; it fails exactly when that tenth is below 0.1 nm |
| ScaleLength.LargestFitUnique | olympus-image-scalebar-annotation.py:31 | at most one catalog entry is the largest fit for a threshold, so the selection is fully determined by its contract |
| ScaleLength.SelectionNeedsPositiveCalibration | olympus-image-scalebar-annotation.py:28-31 | a successful selection implies a non-zero pixel width and a positive pixel size |
| ScaleLength.WideEnoughNeedsPositiveCalibration | olympus-image-scalebar-annotation.py:28-31 | a tenth of the physical width can reach 0.1 nm only if the width in pixels and the pixel size are both positive |
| ScaleLength.SelectionMonotone | olympus-image-scalebar-annotation.py:31 | a larger threshold still selects a length, and that length is never shorter |
| ScaleLength.ImageWidthMonotone | olympus-image-scalebar-annotation.py:28 | for a positive pixel size, more pixels never give a narrower physical width |
| ScaleLength.WiderImageNeverShorter | olympus-image-scalebar-annotation.py:28-31 | for a fixed pixel size, a wider image still selects a length, and that length is never shorter |
| ScaleLength.LengthInPixels | olympus-image-scalebar-annotation.py:32 | the pixel length times the pixel width in nm gives back the physical length; it is positive for a positive length and pixel size |
| ScaleLength.LengthInPixelsMonotone | olympus-image-scalebar-annotation.py:32 | for a fixed positive calibration, a longer physical length is a strictly longer bar in pixels |
| ScaleLength.PixelsWithinTenth | olympus-image-scalebar-annotation.py:28-32 | a length not above a tenth of the physical width converts to at most a tenth of the width in pixels |
| ScaleLength.SelectedBarFitsTenth | olympus-image-scalebar-annotation.py:28-32 | the selected bar is a positive number of pixels, converts back to the selected length, and spans at most one tenth of the image width |
| Layout.DivIsTruncation | olympus-image-scalebar-annotation.py:40-41 | integer division of non-negative integers is the truncation of their real quotient, as `int()` gives it |
| Layout.BarHeight | olympus-image-scalebar-annotation.py:40 | the bar height is at least 2; it is the truncation of height × 0.0035 when that product is at least 2, and exactly 2 otherwise |
| Layout.FontSize | olympus-image-scalebar-annotation.py:41 | the font size is at least 8; it is the truncation of height × 0.02 when that product is at least 8, and exactly 8 otherwise |
| Layout.Place | olympus-image-scalebar-annotation.py:40-52 | in data coordinates (whole numbers at pixel centres), the bar's right edge plus 20 is the image width and its bottom edge plus 20 is the image height; the label anchor is equidistant from both bar ends, font_size/2 pixels above the bar's top, and so at least 4 px above it |
| Layout.BarInsideImage | olympus-image-scalebar-annotation.py:43-47 | an image at least as wide as the bar plus twice the padding puts the bar's left edge at data x-coordinate 20 or beyond and its right edge within the width; a tall enough image puts the bar's top at data y-coordinate 20 or below and its bottom within the height |
| Label.ReadingOf | olympus-image-scalebar-annotation.py:50-51 | the unit is µm exactly when the length is at least 1000 nm; value × nm-per-unit gives back the length; a µm value is at least 1 and an nm value is below 1000 |
| Label.UnitBoundary | olympus-image-scalebar-annotation.py:50-51 | 999 nm reads as 999 nm, 1000 nm as 1 µm, and 2500 nm as 2.5 µm |
| Label.CatalogReadingsHaveText | olympus-image-scalebar-annotation.py:50-52 | every catalog length reads as a value that has a general-format text |
| Label.LabelRoundTrip | olympus-image-scalebar-annotation.py:50-52 | every catalog length has a label that ends in its unit's glyph and parses back to the same length |
| Label.LabelTextInjectiveOnCatalog | olympus-image-scalebar-annotation.py:50-52 | two catalog lengths with the same label are the same length |
| Label.ValueText | olympus-image-scalebar-annotation.py:52 | the `:g` text of the twelve values a catalog length reads as: it is non-empty, has a decimal point exactly when the value is not whole, and `ValueOfText` reads it back as the same value |
| Label.LabelText | olympus-image-scalebar-annotation.py:52 | the label is the value's general-format text, a space and the unit glyph: it is at least four characters long and ends in a space and the reading's unit glyph; it exists for every catalog length |
| Label.NanometreLabels | olympus-image-scalebar-annotation.py:50-52 | the twelve catalog lengths below 1000 nm are labelled "0.1 nm" … "500 nm", each with its value unchanged |
| Label.MicrometreLabels | olympus-image-scalebar-annotation.py:50-52 | the six catalog lengths from 1000 nm up are labelled "1 µm" … "50 µm", each with its value divided by 1000 |
| Label.CatalogLabels | olympus-image-scalebar-annotation.py:30-52 | the label text of every one of the 18 catalog lengths, from "0.1 nm" to "50 µm" |
| ScaleBar.ComputeScaleBar | olympus-image-scalebar-annotation.py:28-52 | the per-image result exists iff a tenth of the width reaches 0.1 nm; it then has a positive pixel size, the largest fitting catalog length, a pixel length in (0, width/10], the layout, the reading, and a label that parses back to the length |
| ScaleBar.WideImageScenario | olympus-image-scalebar-annotation.py:28-52 | a 2000 px image at 5 nm per pixel gets a 1000 nm bar that is 200 px long and labelled "1 µm" |
| ScaleBar.NarrowImageScenario | olympus-image-scalebar-annotation.py:28-52 | a 100 px image at 1 nm per pixel gets a 10 nm bar that is 10 px long and labelled "10 nm" |
| ScaleBar.TooSmallScenario | olympus-image-scalebar-annotation.py:28-31 | a 9 px image at 0.1 nm per pixel has a tenth of 0.09 nm and gets no scale bar |

## Left out

- Directory listing, the `.tif`/`.tiff` filter, creating `scaled/`, and output file names (lines 10–16, 54–55). These are filesystem work.
- TIFF decoding and reading Olympus tag 33560 (lines 18–24). These are calls into `tifffile`. The image dimensions and `pixelsizex` are parameters of the model. A missing tag or a missing pixel size raises in Python; the model does not include that error.
- `pixelsizey` and `magnification`. The source only prints them. The console line (line 25) is output.
- The DPI from `XResolution`, the default of 300, and the figure size (lines 34–35). They only set matplotlib's figure geometry.
- All drawing and saving (lines 35–38, 47–48, 56–58), and the colour, which is passed to matplotlib unchecked. The model computes what would be drawn, not how.
- The command line and `main` (lines 60–72).
- The batch loop. The source has no per-file error handling, so an image whose selection fails raises and ends the whole run. The model returns `None` for that image and does not model the loop.
- The half-pixel offset of matplotlib's default image extent. The model works in data coordinates, as the source does. Each position is 0.5 px further from the image's left and top edges than its number says.
- Floating-point rounding. All arithmetic is on exact reals or integers.
- Label.ValueText: it covers only the values that catalog lengths read as (0.1 to 500). For any other value (such as 999 or 2.5) it gives no text. Python's general `:g` formatting is not modelled.
