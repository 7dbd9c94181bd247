# Knob labels of the minimal equalizer look-and-feel

This project models, in Dafny, the label logic of the equalizer plugin's
custom knob look-and-feel (`MinimalKnobLook`):

- `getUnitForSlider` picks the unit suffix for a knob from its name. It tests
  the name, ignoring case, for "Slope" (" dB/oct"), then "Gain" (" dB"), then
  "Freq" (" Hz"). Any other name gets the empty suffix.
- `getFormattedValue` builds the text drawn under a knob from the knob's name
  and value. The branches are tested in a different order: slope, then freq,
  then gain.
  - A slope value is converted to an `int` index and printed as 12·(index+1).
  - A frequency is converted to `int` and printed.
  - A gain is printed with one decimal.
  - Anything else is printed with two decimals and gets no suffix.

The modules follow that structure:

- `AsciiCase` is letter-case folding.
- `TextSearch` is the case-insensitive containment test (`containsIgnoreCase`).
  `Mentions` states the same test character by character, independently of the
  search.
- `DecimalText` is the decimal text of an `int`. `ParseInt` is its left inverse,
  and on canonical text it is the inverse (`CanonicalIntRoundTrip`).
- `MinimalKnobLook` holds the two operations and the `Slider` record.
- `KnobLabelProperties` holds properties that relate several calls.
- `EditorLabels` covers the seven names the editor gives its knobs.

Modelling choices:

- A slider value is a `real`: a finite double.
- `static_cast<int>` is truncation toward zero (`TruncateToInt`). The model
  requires that the result, and the slope product 12·(index+1), fit in a 32-bit
  `int`. Outside that range the C++ conversion or multiplication is undefined.
- Fixed-decimal printing of a double (`juce::String(value, n)`) is an
  uninterpreted function passed in by the caller (`FixedFormatter`).

The label code does not clamp a slope index. A value of 5 shows "72 dB/oct" and
a value of -3.5 shows "-24 dB/oct". The model follows this code, not a design
in which out-of-range slope choices are clamped.

Because the two operations test the words in different orders, a name that
mentions both "freq" and "gain" (but not "slope") prints an integer followed by
" dB". None of the editor's names is like that.

## Model

| member | source | states |
|---|---|---|
| AsciiCase.ToLower | Source/MinimalKnobLook.h:10-12 | the folded character is not a capital and equals the original ignoring case |
| AsciiCase.ToLowerMatchesIffEqualIgnoringCase | Source/MinimalKnobLook.h:10-12 | two characters fold to the same character exactly when they are equal ignoring case |
| AsciiCase.Lower | Source/MinimalKnobLook.h:10-12 | folding a name keeps its length and folds every position to a non-capital that equals the original ignoring case |
| AsciiCase.LowerEqualIffSameIgnoringCase | Source/MinimalKnobLook.h:10-12 | two names fold to the same text exactly when they differ only in letter case |
| TextSearch.ContainsIffOccurs | Source/MinimalKnobLook.h:10-12 | the substring search succeeds exactly when the word occurs at some position of the name |
| TextSearch.OccursAtLowerIffMatchesAt | Source/MinimalKnobLook.h:10-12 | at a given position, the folded word occurs in the folded name exactly when the word matches there ignoring case |
| TextSearch.AbsentLetterExcludesMention | Source/MinimalKnobLook.h:10-12 | a name lacking one of the word's letters in both cases does not contain the word ignoring case |
| TextSearch.LowerContainsIffMentions | Source/MinimalKnobLook.h:10-12 | searching the lower-cased word in the lower-cased name succeeds exactly when the name mentions the word character by character, ignoring case |
| TextSearch.ContainsIgnoreCase | Source/MinimalKnobLook.h:10-12 | the name test holds exactly when the name mentions the word, ignoring case |
| TextSearch.IndexOfIgnoreCase | Source/MinimalKnobLook.h:10-12 | returns the first position where the word matches ignoring case, or -1 exactly when the name does not mention it; it finds a position exactly when the containment test holds |
| DecimalText.NatToDigits | Source/MinimalKnobLook.h:26 | the digits of n are non-empty, all decimal digits, with no leading zero, and read back as n |
| DecimalText.IntToString | Source/MinimalKnobLook.h:31 | the text of an int is canonical (no leading zero, never "-0") and parses back to it; it starts with "-" exactly for negatives |
| DecimalText.CanonicalDigitsRoundTrip | Source/MinimalKnobLook.h:31 | every canonical digit string is the digits of its own value |
| DecimalText.CanonicalIntRoundTrip | Source/MinimalKnobLook.h:31 | the text of an int is the only canonical spelling that parses to it |
| DecimalText.IntToStringInjective | Source/MinimalKnobLook.h:31 | different ints get different texts |
| MinimalKnobLook.UnitForSlider | Source/MinimalKnobLook.h:8-14 | " dB/oct" when the name mentions slope; else " dB" when it mentions gain; else " Hz" when it mentions freq; else empty |
| MinimalKnobLook.KindOfLabel | Source/MinimalKnobLook.h:22-39 | the label branch is slope exactly when the name mentions slope; freq when it mentions freq but not slope; gain when it mentions gain but neither of the others |
| MinimalKnobLook.TruncateToInt | Source/MinimalKnobLook.h:24 | the conversion to int rounds toward zero: same sign, and within 1 of the value |
| MinimalKnobLook.FormattedValue | Source/MinimalKnobLook.h:17-40 | a slope name ends in " dB/oct" after canonical integer text that reads as 12·(truncated value+1); a freq name ends in its unit after canonical integer text that reads as the truncated value; a gain name is the one-decimal text plus " dB"; any other name is the two-decimal text |
| KnobLabelProperties.UnitIgnoresCase | Source/MinimalKnobLook.h:10-12 | names differing only in letter case get the same unit and the same label branch |
| KnobLabelProperties.LabelIgnoresCase | Source/MinimalKnobLook.h:22-39 | knobs with equal values whose names differ only in letter case show the same label |
| KnobLabelProperties.LabelEndsWithUnit | Source/MinimalKnobLook.h:26-39 | slope, freq and gain labels end with exactly the knob's unit; the fallback is the two-decimal text alone |
| KnobLabelProperties.SlopeLabelOf | Source/MinimalKnobLook.h:22-27 | a slope knob whose conversions are defined and whose value truncates to an index shows the text of 12·(index+1) followed by " dB/oct", for every such index |
| KnobLabelProperties.SlopeFigureTexts | Source/MinimalKnobLook.h:26 | the ints 12, 24, 36, 48, 72 and -24 print as those decimal texts |
| KnobLabelProperties.SlopeChoiceLabels | Source/MinimalKnobLook.h:22-27 | slope choices 0, 1, 2 and 3 show "12 dB/oct", "24 dB/oct", "36 dB/oct" and "48 dB/oct" |
| KnobLabelProperties.SlopeValueTruncatedNotClamped | Source/MinimalKnobLook.h:24-26 | 2.9 shows 36 (truncated, not rounded); 5 shows 72 and -3.5 shows -24 (no clamping) |
| KnobLabelProperties.SlopeLabelIncreases | Source/MinimalKnobLook.h:24-25 | the number in a slope label strictly increases with the truncated value |
| KnobLabelProperties.FreqAndGainNameShowsIntegerDb | Source/MinimalKnobLook.h:29-32 | a name mentioning freq and gain but not slope shows the truncated integer followed by " dB" |
| EditorLabels.PeakFreqIsFrequency | Source/PluginEditor.cpp:52 | "Peak Freq" takes the frequency branch with " Hz" |
| EditorLabels.GainIsGain | Source/PluginEditor.cpp:53 | "Gain" takes the gain branch with " dB" |
| EditorLabels.QIsPlain | Source/PluginEditor.cpp:54 | "Q" takes the two-decimal fallback with no unit |
| EditorLabels.LowCutFreqIsFrequency | Source/PluginEditor.cpp:55 | "Low Cut Freq" takes the frequency branch with " Hz" |
| EditorLabels.LowSlopeIsSlope | Source/PluginEditor.cpp:56 | "Low Slope" takes the slope branch with " dB/oct" |
| EditorLabels.HighCutFreqIsFrequency | Source/PluginEditor.cpp:57 | "High Cut Freq" takes the frequency branch with " Hz" |
| EditorLabels.HighSlopeIsSlope | Source/PluginEditor.cpp:58 | "High Slope" takes the slope branch with " dB/oct" |
| EditorLabels.OnlyQualityIsPlain | Source/PluginEditor.cpp:52-58 | of the seven editor names, only "Q" reaches the fallback and only "Q" has an empty unit |

## Left out

- AsciiCase.ToLower: folds only the 26 ASCII capitals. The library's case-insensitive comparison also folds non-ASCII letters, and Unicode case mapping is not modelled.
- MinimalKnobLook.FormattedValue: the one- and two-decimal text of a double is an uninterpreted formatter argument. Its rounding happens inside the string library on floating point. Its contract therefore says only which formatter call and which suffix make up the gain and fallback labels.
- MinimalKnobLook.FormattedValue: NaN and infinite slider values are not modelled, because a value is a `real`. For the same reason -0.0 and 0.0 are one value, so the formatter must print them alike.
- MinimalKnobLook.FormattedValue: the precondition `ConversionsDefined` excludes an out-of-range conversion of the value to `int`, and signed overflow of `index + 1` and `12 * (index + 1)` in the slope branch. C++ leaves all of these undefined.
- `drawRotarySlider` (Source/MinimalKnobLook.h:42-87): trigonometry, float geometry, fonts and drawing calls.
- Source/PluginEditor.cpp: component construction, parameter attachments and layout. Only the seven knob names are used.
- Source/SpectrumAnalyzer.cpp and .h: a timer, painting, pixel mapping, and a ready-flag handoff whose producer is not part of this model.
- Source/PluginProcessor.h: `getChainSettings` only reads host parameters, and the filter chains are type aliases over library IIR filters. The biquad design, cascade configuration and FFT are not part of this model.
