/**
  Properties of the knob labels that relate several calls or fix concrete
  outcomes: case-insensitivity, the slope figures, the unit suffix of each
  label branch, and the mixed freq/gain name.
 */
module KnobLabelProperties {
  import opened Options
  import opened AsciiCase
  import opened TextSearch
  import opened DecimalText
  import opened MinimalKnobLook

  /** Names that differ only in letter case select the same unit and the same
      label branch. */
  lemma UnitIgnoresCase(a: string, b: string)
    requires SameIgnoringCase(a, b)
    ensures UnitForSlider(a) == UnitForSlider(b)
    ensures KindOfLabel(a) == KindOfLabel(b)
  {
    LowerEqualIffSameIgnoringCase(a, b);
    assert ContainsIgnoreCase(a, SlopeWord) == ContainsIgnoreCase(b, SlopeWord);
    assert ContainsIgnoreCase(a, GainWord) == ContainsIgnoreCase(b, GainWord);
    assert ContainsIgnoreCase(a, FreqWord) == ContainsIgnoreCase(b, FreqWord);
  }

  /** Two sliders with the same value whose names differ only in letter case
      show the same label. */
  lemma LabelIgnoresCase(a: Slider, b: Slider, fixed: FixedFormatter)
    requires SameIgnoringCase(a.name, b.name) && a.value == b.value
    requires ConversionsDefined(a)
    ensures ConversionsDefined(b)
    ensures FormattedValue(a, fixed) == FormattedValue(b, fixed)
  {
    UnitIgnoresCase(a.name, b.name);
  }

  /** In the slope, freq and gain branches the label ends with exactly the
      slider's unit; the plain branch is the two-decimal text with no suffix. */
  lemma LabelEndsWithUnit(s: Slider, fixed: FixedFormatter)
    requires ConversionsDefined(s)
    ensures KindOfLabel(s.name) != PlainLabel ==>
              EndsWith(FormattedValue(s, fixed), UnitForSlider(s.name))
    ensures KindOfLabel(s.name) == PlainLabel ==> FormattedValue(s, fixed) == fixed(s.value, 2)
  {
  }

  /** The slope label of a value whose truncation is a given index. */
  lemma SlopeLabelOf(name: string, v: real, index: int, fixed: FixedFormatter)
    requires Mentions(name, SlopeWord)
    requires ConversionsDefined(Slider(name, v))
    requires TruncateToInt(v) == index
    ensures FormattedValue(Slider(name, v), fixed) == IntToString(12 * (index + 1)) + SlopeUnit
  {
  }

  /** A slope knob whose value truncates to a small index has well-defined
      conversions. */
  lemma SmallSlopeIndexDefined(name: string, v: real)
    requires Mentions(name, SlopeWord)
    requires -100 <= TruncateToInt(v) <= 100
    ensures ConversionsDefined(Slider(name, v))
  {
    assert KindOfLabel(name) == SlopeLabel;
  }

  /** The decimal texts of the slope figures used below. */
  lemma SlopeFigureTexts()
    ensures IntToString(12) == "12" && IntToString(24) == "24"
    ensures IntToString(36) == "36" && IntToString(48) == "48"
    ensures IntToString(72) == "72" && IntToString(-24) == "-24"
  {
    assert NatToDigits(12) == NatToDigits(1) + [DigitChar(2)];
    assert NatToDigits(24) == NatToDigits(2) + [DigitChar(4)];
    assert NatToDigits(36) == NatToDigits(3) + [DigitChar(6)];
    assert NatToDigits(48) == NatToDigits(4) + [DigitChar(8)];
    assert NatToDigits(72) == NatToDigits(7) + [DigitChar(2)];
  }

  /** The four slope choices 0..3 read 12, 24, 36 and 48 dB/oct. */
  lemma SlopeChoiceLabels(name: string, fixed: FixedFormatter)
    requires Mentions(name, SlopeWord)
    ensures FormattedValue(Slider(name, 0.0), fixed) == "12 dB/oct"
    ensures FormattedValue(Slider(name, 1.0), fixed) == "24 dB/oct"
    ensures FormattedValue(Slider(name, 2.0), fixed) == "36 dB/oct"
    ensures FormattedValue(Slider(name, 3.0), fixed) == "48 dB/oct"
  {
    SlopeFigureTexts();
    assert TruncateToInt(0.0) == 0;
    SmallSlopeIndexDefined(name, 0.0);
    SlopeLabelOf(name, 0.0, 0, fixed);
    assert TruncateToInt(1.0) == 1;
    SmallSlopeIndexDefined(name, 1.0);
    SlopeLabelOf(name, 1.0, 1, fixed);
    assert TruncateToInt(2.0) == 2;
    SmallSlopeIndexDefined(name, 2.0);
    SlopeLabelOf(name, 2.0, 2, fixed);
    assert TruncateToInt(3.0) == 3;
    SmallSlopeIndexDefined(name, 3.0);
    SlopeLabelOf(name, 3.0, 3, fixed);
  }

  /** A fractional slope value is truncated, not rounded, and values outside
      0..3 are not clamped. */
  lemma SlopeValueTruncatedNotClamped(name: string, fixed: FixedFormatter)
    requires Mentions(name, SlopeWord)
    ensures FormattedValue(Slider(name, 2.9), fixed) == "36 dB/oct"
    ensures FormattedValue(Slider(name, 5.0), fixed) == "72 dB/oct"
    ensures FormattedValue(Slider(name, -3.5), fixed) == "-24 dB/oct"
  {
    SlopeFigureTexts();
    assert TruncateToInt(2.9) == 2;
    SmallSlopeIndexDefined(name, 2.9);
    SlopeLabelOf(name, 2.9, 2, fixed);
    assert TruncateToInt(5.0) == 5;
    SmallSlopeIndexDefined(name, 5.0);
    SlopeLabelOf(name, 5.0, 5, fixed);
    assert TruncateToInt(-3.5) == -3;
    SmallSlopeIndexDefined(name, -3.5);
    SlopeLabelOf(name, -3.5, -3, fixed);
  }

  /** The number in a slope label strictly increases with the truncated value. */
  lemma SlopeLabelIncreases(a: Slider, b: Slider, fixed: FixedFormatter)
    requires Mentions(a.name, SlopeWord) && Mentions(b.name, SlopeWord)
    requires ConversionsDefined(a) && ConversionsDefined(b)
    requires TruncateToInt(a.value) < TruncateToInt(b.value)
    ensures ParseInt(DropSuffix(FormattedValue(a, fixed), SlopeUnit)).Some?
    ensures ParseInt(DropSuffix(FormattedValue(b, fixed), SlopeUnit)).Some?
    ensures ParseInt(DropSuffix(FormattedValue(a, fixed), SlopeUnit)).value
              < ParseInt(DropSuffix(FormattedValue(b, fixed), SlopeUnit)).value
  {
  }

  /** A name that mentions both "freq" and "gain" (and not "slope") takes the
      frequency branch, an integer, but the gain unit " dB". */
  lemma FreqAndGainNameShowsIntegerDb(s: Slider, fixed: FixedFormatter)
    requires !Mentions(s.name, SlopeWord) && Mentions(s.name, FreqWord) && Mentions(s.name, GainWord)
    requires ConversionsDefined(s)
    ensures FormattedValue(s, fixed) == IntToString(TruncateToInt(s.value)) + GainUnit
  {
  }
}
