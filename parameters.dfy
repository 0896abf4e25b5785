/**
 * createParameters: the parameter layout each processor registers with its
 * parameter store (a wave-type choice, the cutoff FREQ and the quality Q), and
 * how the store's value of the choice reaches setWaveType.
 */
module Parameters {
  import Waveforms
  import opened Filter

  datatype ChoiceParameter = ChoiceParameter(id: string, name: string, choices: seq<string>, defaultIndex: int)

  datatype FloatParameter = FloatParameter(id: string, name: string, minValue: real, maxValue: real, defaultValue: real)

  datatype ParameterLayout = ParameterLayout(waveType: ChoiceParameter, cutoff: FloatParameter, quality: FloatParameter)

  predicate ChoiceWellFormed(p: ChoiceParameter) {
    |p.choices| > 0 && 0 <= p.defaultIndex < |p.choices|
  }

  predicate FloatWellFormed(p: FloatParameter) {
    p.minValue < p.maxValue && p.minValue <= p.defaultValue <= p.maxValue
  }

  /** Non-empty choices, ranges with their defaults inside, and distinct identifiers. */
  predicate WellFormed(l: ParameterLayout) {
    && ChoiceWellFormed(l.waveType)
    && FloatWellFormed(l.cutoff)
    && FloatWellFormed(l.quality)
    && l.waveType.id != l.cutoff.id
    && l.waveType.id != l.quality.id
    && l.cutoff.id != l.quality.id
  }

  /** The declared cutoff range lies inside (0, Nyquist) of SampleRate and the Q range above 0. */
  predicate RangesRealisable(l: ParameterLayout) {
    0.0 < l.cutoff.minValue && l.cutoff.maxValue < SampleRate / 2.0 && 0.0 < l.quality.minValue
  }

  /** So every cutoff and Q the store can hold gives a realisable design, with no clamping. */
  lemma InRangeDesignRealisable(l: ParameterLayout, cutoff: real, quality: real)
    requires RangesRealisable(l)
    requires l.cutoff.minValue <= cutoff <= l.cutoff.maxValue
    requires l.quality.minValue <= quality <= l.quality.maxValue
    ensures Realisable(LowPass(SampleRate, cutoff, quality))
  {
  }

  /** The six-shape processor's layout. */
  function SubtractiveParameters(): (l: ParameterLayout)
    ensures WellFormed(l) && RangesRealisable(l)
    ensures l.waveType.defaultIndex == 0
    ensures forall i :: 0 <= i < |l.waveType.choices| <==> Waveforms.ShapeOfChoice(i).Some?
    ensures l.cutoff.minValue == 50.0 && l.cutoff.maxValue == 1500.0 && l.cutoff.defaultValue == 500.0
    ensures l.quality.minValue == 0.1 && l.quality.maxValue == 1.0 && l.quality.defaultValue == 0.5
  {
    ParameterLayout(
      ChoiceParameter("OSC1WAVETYPE", "Osc 1 Wave Type", ["Sine", "Saw", "Square", "Triangle", "Pinky", "Ponky"], 0),
      FloatParameter("FREQ", "CutOff Frequency", 50.0, 1500.0, 500.0),
      FloatParameter("Q", "Q Factor", 0.1, 1.0, 0.5))
  }

  /** The four-shape processor's layout. */
  function BasicParameters(): (l: ParameterLayout)
    ensures WellFormed(l) && RangesRealisable(l)
    ensures l.waveType.defaultIndex == 0
    ensures forall i :: 0 <= i < |l.waveType.choices| <==> Waveforms.BasicShapeOfChoice(i).Some?
    ensures l.cutoff.minValue == 50.0 && l.cutoff.maxValue == 20000.0 && l.cutoff.defaultValue == 500.0
    ensures l.quality.minValue == 0.1 && l.quality.maxValue == 1.0 && l.quality.defaultValue == 0.5
  {
    ParameterLayout(
      ChoiceParameter("OSC1WAVETYPE", "Osc 1 Wave Type", ["Sine", "Saw", "Square", "Triang"], 0),
      FloatParameter("FREQ", "CutOff Frequency", 50.0, 20000.0, 500.0),
      FloatParameter("Q", "Q Factor", 0.1, 1.0, 0.5))
  }

  /**
   * The store holds the choice as a float; passing it to setWaveType's int
   * parameter truncates toward zero.
   */
  function ChoiceFromParam(v: real): (choice: int)
    ensures Waveforms.Abs(choice as real) <= Waveforms.Abs(v) < Waveforms.Abs(choice as real) + 1.0
    ensures choice != 0 ==> (choice < 0 <==> v < 0.0)
  {
    if v >= 0.0 then v.Floor else -((-v).Floor)
  }

  /** Whatever value a declared choice index reaches setWaveType as, it selects a shape: the assertion is not reached. */
  lemma DeclaredChoicesSelectShapes(i: int)
    requires 0 <= i < |SubtractiveParameters().waveType.choices|
    ensures Waveforms.ShapeOfChoice(ChoiceFromParam(i as real)).Some?
  {
    assert ChoiceFromParam(i as real) == i;
  }

  lemma BasicDeclaredChoicesSelectShapes(i: int)
    requires 0 <= i < |BasicParameters().waveType.choices|
    ensures Waveforms.BasicShapeOfChoice(ChoiceFromParam(i as real)).Some?
  {
    assert ChoiceFromParam(i as real) == i;
  }
}
