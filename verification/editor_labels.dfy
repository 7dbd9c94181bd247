/**
  The seven knob names the plugin editor assigns, and the unit and label
  branch each one gets from the knob look-and-feel.
 */
module EditorLabels {
  import opened TextSearch
  import opened MinimalKnobLook

  /** The names given to the peak-frequency, peak-gain, peak-quality, low-cut
      frequency, low-cut slope, high-cut frequency and high-cut slope knobs. */
  const EditorSliderNames: seq<string> :=
    ["Peak Freq", "Gain", "Q", "Low Cut Freq", "Low Slope", "High Cut Freq", "High Slope"]

  lemma PeakFreqIsFrequency()
    ensures KindOfLabel("Peak Freq") == FreqLabel && UnitForSlider("Peak Freq") == FreqUnit
  {
    AbsentLetterExcludesMention("Peak Freq", SlopeWord, 0);
    AbsentLetterExcludesMention("Peak Freq", GainWord, 0);
    assert MatchesAt(FreqWord, "Peak Freq", 5);
  }

  lemma GainIsGain()
    ensures KindOfLabel("Gain") == GainLabel && UnitForSlider("Gain") == GainUnit
  {
    AbsentLetterExcludesMention("Gain", SlopeWord, 0);
    AbsentLetterExcludesMention("Gain", FreqWord, 0);
    assert MatchesAt(GainWord, "Gain", 0);
  }

  lemma QIsPlain()
    ensures KindOfLabel("Q") == PlainLabel && UnitForSlider("Q") == ""
  {
    AbsentLetterExcludesMention("Q", SlopeWord, 0);
    AbsentLetterExcludesMention("Q", GainWord, 0);
    AbsentLetterExcludesMention("Q", FreqWord, 0);
  }

  lemma LowCutFreqIsFrequency()
    ensures KindOfLabel("Low Cut Freq") == FreqLabel && UnitForSlider("Low Cut Freq") == FreqUnit
  {
    AbsentLetterExcludesMention("Low Cut Freq", SlopeWord, 0);
    AbsentLetterExcludesMention("Low Cut Freq", GainWord, 0);
    assert MatchesAt(FreqWord, "Low Cut Freq", 8);
  }

  lemma HighCutFreqIsFrequency()
    ensures KindOfLabel("High Cut Freq") == FreqLabel && UnitForSlider("High Cut Freq") == FreqUnit
  {
    AbsentLetterExcludesMention("High Cut Freq", SlopeWord, 0);
    AbsentLetterExcludesMention("High Cut Freq", GainWord, 1);
    assert MatchesAt(FreqWord, "High Cut Freq", 9);
  }

  lemma LowSlopeIsSlope()
    ensures KindOfLabel("Low Slope") == SlopeLabel && UnitForSlider("Low Slope") == SlopeUnit
  {
    assert MatchesAt(SlopeWord, "Low Slope", 4);
  }

  lemma HighSlopeIsSlope()
    ensures KindOfLabel("High Slope") == SlopeLabel && UnitForSlider("High Slope") == SlopeUnit
  {
    assert MatchesAt(SlopeWord, "High Slope", 5);
  }

  /** Of the editor's seven names only "Q" reaches the two-decimal fallback;
      every other one gets a unit. */
  lemma OnlyQualityIsPlain()
    ensures forall i :: 0 <= i < |EditorSliderNames| ==>
              (KindOfLabel(EditorSliderNames[i]) == PlainLabel <==> EditorSliderNames[i] == "Q")
    ensures forall i :: 0 <= i < |EditorSliderNames| ==>
              (UnitForSlider(EditorSliderNames[i]) == "" <==> EditorSliderNames[i] == "Q")
  {
    forall i | 0 <= i < |EditorSliderNames|
      ensures KindOfLabel(EditorSliderNames[i]) == PlainLabel <==> EditorSliderNames[i] == "Q"
      ensures UnitForSlider(EditorSliderNames[i]) == "" <==> EditorSliderNames[i] == "Q"
    {
      var name := EditorSliderNames[i];
      if i == 0 {
        assert name == "Peak Freq";
        PeakFreqIsFrequency();
      } else if i == 1 {
        assert name == "Gain";
        GainIsGain();
      } else if i == 2 {
        assert name == "Q";
        QIsPlain();
      } else if i == 3 {
        assert name == "Low Cut Freq";
        LowCutFreqIsFrequency();
      } else if i == 4 {
        assert name == "Low Slope";
        LowSlopeIsSlope();
      } else if i == 5 {
        assert name == "High Cut Freq";
        HighCutFreqIsFrequency();
      } else {
        assert name == "High Slope";
        HighSlopeIsSlope();
      }
    }
  }
}
