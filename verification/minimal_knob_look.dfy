/**
  The label logic of the minimal knob look-and-feel: the unit suffix chosen
  from a slider's name, and the text drawn under a knob from the slider's name
  and value. Names are tested with a case-insensitive substring search.

  The unit follows the priority Slope, Gain, Freq; the label branches follow
  the priority Slope, Freq, Gain. The fixed-decimal text of a double is a
  formatter passed in by the caller.
 */
module MinimalKnobLook {
  import opened Options
  import opened AsciiCase
  import opened TextSearch
  import opened DecimalText

  /** A knob: its name and its current (finite) value. */
  datatype Slider = Slider(name: string, value: real)

  /** Fixed-point text of a double with the given number of decimals. */
  type FixedFormatter = (real, nat) -> string

  /** Which branch of the label code a slider name selects. */
  datatype LabelKind = SlopeLabel | FreqLabel | GainLabel | PlainLabel

  const SlopeWord := "Slope"
  const GainWord := "Gain"
  const FreqWord := "Freq"

  const SlopeUnit := " dB/oct"
  const GainUnit := " dB"
  const FreqUnit := " Hz"

  predicate IsInt32(x: int) {
    -0x8000_0000 <= x < 0x8000_0000
  }

  predicate EndsWith(s: string, suffix: string) {
    |suffix| <= |s| && s[|s| - |suffix|..] == suffix
  }

  /** s with the suffix taken off. */
  function DropSuffix(s: string, suffix: string): string
    requires EndsWith(s, suffix)
  {
    s[..|s| - |suffix|]
  }

  /** The unit suffix for a slider name: " dB/oct" if it mentions "slope",
      else " dB" if it mentions "gain", else " Hz" if it mentions "freq",
      else nothing, all ignoring case. */
  function UnitForSlider(name: string): (u: string)
    ensures Mentions(name, SlopeWord) ==> u == SlopeUnit
    ensures !Mentions(name, SlopeWord) && Mentions(name, GainWord) ==> u == GainUnit
    ensures !Mentions(name, SlopeWord) && !Mentions(name, GainWord) && Mentions(name, FreqWord) ==>
              u == FreqUnit
    ensures !Mentions(name, SlopeWord) && !Mentions(name, GainWord) && !Mentions(name, FreqWord) ==>
              u == ""
  {
    if ContainsIgnoreCase(name, SlopeWord) then SlopeUnit
    else if ContainsIgnoreCase(name, GainWord) then GainUnit
    else if ContainsIgnoreCase(name, FreqWord) then FreqUnit
    else ""
  }

  /** The label branch for a slider name: slope before freq before gain. */
  function KindOfLabel(name: string): (k: LabelKind)
    ensures k == SlopeLabel <==> Mentions(name, SlopeWord)
    ensures k == FreqLabel <==> !Mentions(name, SlopeWord) && Mentions(name, FreqWord)
    ensures k == GainLabel <==>
              !Mentions(name, SlopeWord) && !Mentions(name, FreqWord) && Mentions(name, GainWord)
  {
    if ContainsIgnoreCase(name, SlopeWord) then SlopeLabel
    else if ContainsIgnoreCase(name, FreqWord) then FreqLabel
    else if ContainsIgnoreCase(name, GainWord) then GainLabel
    else PlainLabel
  }

  /** Conversion of a double to int: truncation toward zero. */
  function TruncateToInt(v: real): (n: int)
    ensures 0.0 <= v ==> 0 <= n && n as real <= v < n as real + 1.0
    ensures v < 0.0 ==> n <= 0 && n as real - 1.0 < v <= n as real
  {
    if v >= 0.0 then v.Floor else -((-v).Floor)
  }

  /** The integer conversions the label of s performs stay within 32-bit int:
      the truncated value, and for a slope also the dB/octave product. */
  predicate ConversionsDefined(s: Slider) {
    var k := KindOfLabel(s.name);
    var index := TruncateToInt(s.value);
    (k == SlopeLabel ==> IsInt32(index) && IsInt32(index + 1) && IsInt32(12 * (index + 1)))
    && (k == FreqLabel ==> IsInt32(index))
  }

  /** The text drawn under a knob. */
  function FormattedValue(s: Slider, fixed: FixedFormatter): (shown: string)
    requires ConversionsDefined(s)
    ensures Mentions(s.name, SlopeWord) ==>
              EndsWith(shown, SlopeUnit)
              && IsCanonicalInt(DropSuffix(shown, SlopeUnit))
              && ParseInt(DropSuffix(shown, SlopeUnit)) == Some(12 * (TruncateToInt(s.value) + 1))
    ensures !Mentions(s.name, SlopeWord) && Mentions(s.name, FreqWord) ==>
              EndsWith(shown, UnitForSlider(s.name))
              && IsCanonicalInt(DropSuffix(shown, UnitForSlider(s.name)))
              && ParseInt(DropSuffix(shown, UnitForSlider(s.name))) == Some(TruncateToInt(s.value))
    ensures !Mentions(s.name, SlopeWord) && !Mentions(s.name, FreqWord) && Mentions(s.name, GainWord) ==>
              shown == fixed(s.value, 1) + GainUnit
    ensures !Mentions(s.name, SlopeWord) && !Mentions(s.name, FreqWord) && !Mentions(s.name, GainWord) ==>
              shown == fixed(s.value, 2)
  {
    var unit := UnitForSlider(s.name);
    match KindOfLabel(s.name)
    case SlopeLabel =>
      var number := IntToString(12 * (TruncateToInt(s.value) + 1));
      assert DropSuffix(number + unit, unit) == number;
      number + unit
    case FreqLabel =>
      var number := IntToString(TruncateToInt(s.value));
      assert DropSuffix(number + unit, unit) == number;
      number + unit
    case GainLabel => fixed(s.value, 1) + unit
    case PlainLabel => fixed(s.value, 2)
  }
}
