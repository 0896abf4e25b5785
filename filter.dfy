/**
 * The arguments the processor hands to JUCE's IIR low-pass design
 * (makeLowPass(sampleRate, cutoff, Q)). The design itself and the filtering are
 * JUCE's and are outside this model: only the arguments are recorded.
 */
module Filter {

  /** The SAMPLE_RATE macro: the rate every design uses, whatever rate the host runs at. */
  const SampleRate: real := 44100.0

  datatype FilterDesign = LowPass(sampleRate: real, cutoff: real, quality: real)

  /** Arguments the low-pass design formula can take: a cutoff strictly inside (0, Nyquist) and a positive Q. */
  predicate Realisable(d: FilterDesign) {
    0.0 < d.cutoff < d.sampleRate / 2.0 && d.quality > 0.0
  }

  /** The design the constructor installs before any block is processed. */
  function InitialDesign(): (d: FilterDesign)
    ensures Realisable(d) && d.sampleRate == SampleRate
  {
    LowPass(SampleRate, 20000.0, 0.1)
  }
}
