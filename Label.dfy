/**
 * Label formatting: the bar's length as a value and a unit, switching from
 * nanometres to micrometres at 1000 nm, and the text drawn above the bar.
 */
module Label {
  import opened Options
  import ScaleLength

  datatype LengthUnit = Nanometre | Micrometre

  /** The unit glyphs the label uses. */
  function Symbol(unit: LengthUnit): string {
    match unit
    case Nanometre => "nm"
    case Micrometre => "µm"
  }

  /** How many nanometres one of `unit` is. */
  function NmPerUnit(unit: LengthUnit): real {
    match unit
    case Nanometre => 1.0
    case Micrometre => 1000.0
  }

  /** A length as displayed: a value in a unit. */
  datatype Reading = Reading(value: real, unit: LengthUnit)

  /**
   * The reading of a length in nanometres: micrometres from 1000 nm up,
   * nanometres below. The value always converts back to the same length.
   */
  function ReadingOf(lengthNm: real): (r: Reading)
    ensures r.unit == Micrometre <==> lengthNm >= 1000.0
    ensures r.value * NmPerUnit(r.unit) == lengthNm
    ensures r.unit == Micrometre ==> r.value >= 1.0
    ensures r.unit == Nanometre ==> r.value < 1000.0
  {
    var unit := if lengthNm >= 1000.0 then Micrometre else Nanometre;
    var value := if unit == Micrometre then lengthNm / 1000.0 else lengthNm;
    Reading(value, unit)
  }

  /**
   * The general-format (`:g`) text of the values a catalog length can be
   * read as; any other value has no text in this model. As `:g` does, it
   * writes a whole value without a decimal point, and `ValueOfText` reads
   * every text back as its value.
   */
  function ValueText(value: real): (r: Option<string>)
    ensures r.Some? ==> |r.value| >= 1 && ValueOfText(r.value) == Some(value)
    ensures r.Some? ==> ('.' in r.value <==> value.Floor as real != value)
  {
    if value == 0.1 then Some("0.1")
    else if value == 0.2 then Some("0.2")
    else if value == 0.5 then Some("0.5")
    else if value == 1.0 then Some("1")
    else if value == 2.0 then Some("2")
    else if value == 5.0 then Some("5")
    else if value == 10.0 then Some("10")
    else if value == 20.0 then Some("20")
    else if value == 50.0 then Some("50")
    else if value == 100.0 then Some("100")
    else if value == 200.0 then Some("200")
    else if value == 500.0 then Some("500")
    else None
  }

  /**
   * The label text, `"<value> <unit>"`: the value's general-format text, a
   * space and the unit glyph. Every catalog length has one.
   */
  function LabelText(lengthNm: real): (r: Option<string>)
    ensures lengthNm in ScaleLength.Catalog ==> r.Some?
    ensures r.Some? ==>
      && |r.value| >= 4
      && r.value[|r.value| - 3] == ' '
      && r.value[|r.value| - 2..] == Symbol(ReadingOf(lengthNm).unit)
  {
    assert lengthNm in ScaleLength.Catalog ==> ValueText(ReadingOf(lengthNm).value).Some? by {
      if lengthNm in ScaleLength.Catalog { CatalogReadingsHaveText(lengthNm); }
    }
    var reading := ReadingOf(lengthNm);
    match ValueText(reading.value)
    case Some(text) => Some(text + " " + Symbol(reading.unit))
    case None => None
  }

  /** Reads back a value written by `ValueText`. */
  function ValueOfText(text: string): Option<real> {
    if text == "0.1" then Some(0.1)
    else if text == "0.2" then Some(0.2)
    else if text == "0.5" then Some(0.5)
    else if text == "1" then Some(1.0)
    else if text == "2" then Some(2.0)
    else if text == "5" then Some(5.0)
    else if text == "10" then Some(10.0)
    else if text == "20" then Some(20.0)
    else if text == "50" then Some(50.0)
    else if text == "100" then Some(100.0)
    else if text == "200" then Some(200.0)
    else if text == "500" then Some(500.0)
    else None
  }

  function UnitOfSymbol(symbol: string): Option<LengthUnit> {
    if symbol == Symbol(Nanometre) then Some(Nanometre)
    else if symbol == Symbol(Micrometre) then Some(Micrometre)
    else None
  }

  /** Reads a label `"<value> <unit>"` back as a length in nanometres. */
  function ParseLabel(text: string): Option<real> {
    if |text| < 4 || text[|text| - 3] != ' ' then None
    else
      match (ValueOfText(text[..|text| - 3]), UnitOfSymbol(text[|text| - 2..]))
      case (Some(value), Some(unit)) => Some(value * NmPerUnit(unit))
      case _ => None
  }

  /** Every catalog length reads as a value that has a text. */
  lemma CatalogReadingsHaveText(lengthNm: real)
    requires lengthNm in ScaleLength.Catalog
    ensures ValueText(ReadingOf(lengthNm).value).Some?
  {
  }

  /** A label assembled from a value's text and a unit reads back as that value in that unit. */
  lemma ParseAssembledLabel(value: real, unit: LengthUnit)
    requires ValueText(value).Some?
    ensures ParseLabel(ValueText(value).value + " " + Symbol(unit)) == Some(value * NmPerUnit(unit))
  {
    var valueText := ValueText(value).value;
    var text := valueText + " " + Symbol(unit);
    assert text[..|text| - 3] == valueText;
    assert text[|text| - 2..] == Symbol(unit);
    assert UnitOfSymbol(Symbol(unit)) == Some(unit);
  }

  /**
   * Every catalog length has a label, the label ends in its reading's unit,
   * and reading the label back gives the length again.
   */
  lemma LabelRoundTrip(lengthNm: real)
    requires lengthNm in ScaleLength.Catalog
    ensures LabelText(lengthNm).Some?
    ensures var text := LabelText(lengthNm).value;
      && text[|text| - 2..] == Symbol(ReadingOf(lengthNm).unit)
      && ParseLabel(text) == Some(lengthNm)
  {
    var reading := ReadingOf(lengthNm);
    CatalogReadingsHaveText(lengthNm);
    ParseAssembledLabel(reading.value, reading.unit);
    var text := ValueText(reading.value).value + " " + Symbol(reading.unit);
    assert LabelText(lengthNm) == Some(text);
    assert text[|text| - 2..] == Symbol(reading.unit);
  }

  /** Distinct catalog lengths never share a label. */
  lemma LabelTextInjectiveOnCatalog(length1: real, length2: real)
    requires length1 in ScaleLength.Catalog && length2 in ScaleLength.Catalog
    requires LabelText(length1) == LabelText(length2)
    ensures length1 == length2
  {
    LabelRoundTrip(length1);
    LabelRoundTrip(length2);
  }

  /** The unit switches exactly at 1000 nm. */
  lemma UnitBoundary()
    ensures ReadingOf(999.0) == Reading(999.0, Nanometre)
    ensures ReadingOf(1000.0) == Reading(1.0, Micrometre)
    ensures ReadingOf(2500.0) == Reading(2.5, Micrometre)
  {
  }

  /** The labels of the catalog lengths below 1000 nm. */
  lemma NanometreLabels()
    ensures LabelText(0.1) == Some("0.1 nm")
    ensures LabelText(0.2) == Some("0.2 nm")
    ensures LabelText(0.5) == Some("0.5 nm")
    ensures LabelText(1.0) == Some("1 nm")
    ensures LabelText(2.0) == Some("2 nm")
    ensures LabelText(5.0) == Some("5 nm")
    ensures LabelText(10.0) == Some("10 nm")
    ensures LabelText(20.0) == Some("20 nm")
    ensures LabelText(50.0) == Some("50 nm")
    ensures LabelText(100.0) == Some("100 nm")
    ensures LabelText(200.0) == Some("200 nm")
    ensures LabelText(500.0) == Some("500 nm")
  {
    assert ReadingOf(0.1) == Reading(0.1, Nanometre) && ValueText(0.1) == Some("0.1");
    assert "0.1" + " " + "nm" == "0.1 nm";
    assert ReadingOf(0.2) == Reading(0.2, Nanometre) && ValueText(0.2) == Some("0.2");
    assert "0.2" + " " + "nm" == "0.2 nm";
    assert ReadingOf(0.5) == Reading(0.5, Nanometre) && ValueText(0.5) == Some("0.5");
    assert "0.5" + " " + "nm" == "0.5 nm";
    assert ReadingOf(1.0) == Reading(1.0, Nanometre) && ValueText(1.0) == Some("1");
    assert "1" + " " + "nm" == "1 nm";
    assert ReadingOf(2.0) == Reading(2.0, Nanometre) && ValueText(2.0) == Some("2");
    assert "2" + " " + "nm" == "2 nm";
    assert ReadingOf(5.0) == Reading(5.0, Nanometre) && ValueText(5.0) == Some("5");
    assert "5" + " " + "nm" == "5 nm";
    assert ReadingOf(10.0) == Reading(10.0, Nanometre) && ValueText(10.0) == Some("10");
    assert "10" + " " + "nm" == "10 nm";
    assert ReadingOf(20.0) == Reading(20.0, Nanometre) && ValueText(20.0) == Some("20");
    assert "20" + " " + "nm" == "20 nm";
    assert ReadingOf(50.0) == Reading(50.0, Nanometre) && ValueText(50.0) == Some("50");
    assert "50" + " " + "nm" == "50 nm";
    assert ReadingOf(100.0) == Reading(100.0, Nanometre) && ValueText(100.0) == Some("100");
    assert "100" + " " + "nm" == "100 nm";
    assert ReadingOf(200.0) == Reading(200.0, Nanometre) && ValueText(200.0) == Some("200");
    assert "200" + " " + "nm" == "200 nm";
    assert ReadingOf(500.0) == Reading(500.0, Nanometre) && ValueText(500.0) == Some("500");
    assert "500" + " " + "nm" == "500 nm";
  }

  /** The labels of the catalog lengths from 1000 nm up. */
  lemma MicrometreLabels()
    ensures LabelText(1000.0) == Some("1 µm")
    ensures LabelText(2000.0) == Some("2 µm")
    ensures LabelText(5000.0) == Some("5 µm")
    ensures LabelText(10000.0) == Some("10 µm")
    ensures LabelText(20000.0) == Some("20 µm")
    ensures LabelText(50000.0) == Some("50 µm")
  {
    assert ReadingOf(1000.0) == Reading(1.0, Micrometre) && ValueText(1.0) == Some("1");
    assert "1" + " " + "µm" == "1 µm";
    assert ReadingOf(2000.0) == Reading(2.0, Micrometre) && ValueText(2.0) == Some("2");
    assert "2" + " " + "µm" == "2 µm";
    assert ReadingOf(5000.0) == Reading(5.0, Micrometre) && ValueText(5.0) == Some("5");
    assert "5" + " " + "µm" == "5 µm";
    assert ReadingOf(10000.0) == Reading(10.0, Micrometre) && ValueText(10.0) == Some("10");
    assert "10" + " " + "µm" == "10 µm";
    assert ReadingOf(20000.0) == Reading(20.0, Micrometre) && ValueText(20.0) == Some("20");
    assert "20" + " " + "µm" == "20 µm";
    assert ReadingOf(50000.0) == Reading(50.0, Micrometre) && ValueText(50.0) == Some("50");
    assert "50" + " " + "µm" == "50 µm";
  }

  /** The label of every one of the 18 catalog lengths. */
  lemma CatalogLabels()
    ensures LabelText(0.1) == Some("0.1 nm")
    ensures LabelText(0.2) == Some("0.2 nm")
    ensures LabelText(0.5) == Some("0.5 nm")
    ensures LabelText(1.0) == Some("1 nm")
    ensures LabelText(2.0) == Some("2 nm")
    ensures LabelText(5.0) == Some("5 nm")
    ensures LabelText(10.0) == Some("10 nm")
    ensures LabelText(20.0) == Some("20 nm")
    ensures LabelText(50.0) == Some("50 nm")
    ensures LabelText(100.0) == Some("100 nm")
    ensures LabelText(200.0) == Some("200 nm")
    ensures LabelText(500.0) == Some("500 nm")
    ensures LabelText(1000.0) == Some("1 µm")
    ensures LabelText(2000.0) == Some("2 µm")
    ensures LabelText(5000.0) == Some("5 µm")
    ensures LabelText(10000.0) == Some("10 µm")
    ensures LabelText(20000.0) == Some("20 µm")
    ensures LabelText(50000.0) == Some("50 µm")
  {
    NanometreLabels();
    MicrometreLabels();
  }
}
