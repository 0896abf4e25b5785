/**
 * The oscillator's wave shapes: the generator functions that OscData::setWaveType
 * installs, one per choice index, in both snapshots of the processor.
 *
 * A generator maps the oscillator's argument x (its phase minus pi, so in
 * [-pi, pi) while the phase stays in [0, 2pi)) to a sample. Arithmetic is on
 * reals: float rounding is not modelled. Sine and cosine are supplied by the
 * caller as a `Trig` record, so nothing here depends on what they compute.
 */
module Waveforms {
  import opened Optional

  /** juce::MathConstants<float>::pi: the float nearest to pi. */
  const Pi: real := 3.1415927410125732421875

  /** The step the triangle shapes add away from zero (`delta` in the header). */
  const Delta: real := 0.00001

  /** The two transcendental functions the sine-based shapes call. */
  datatype Trig = Trig(sin: real -> real, cos: real -> real)

  function Abs(x: real): real {
    if x < 0.0 then -x else x
  }

  // ---------------------------------------------------------------------------
  // The six-shape variant (setWaveType(choice, amp)): every shape captures amp.
  // ---------------------------------------------------------------------------

  /** The shapes of the OSC1WAVETYPE choice parameter, in choice-index order. */
  datatype Shape = Sine | Saw | Square | Triangle | Pinky | Ponky

  /** A generator as installed: the shape and the amplitude captured with it. */
  datatype Generator = Generator(shape: Shape, amp: real)

  function ChoiceIndex(s: Shape): (i: nat)
    ensures i < 6
  {
    match s
    case Sine => 0
    case Saw => 1
    case Square => 2
    case Triangle => 3
    case Pinky => 4
    case Ponky => 5
  }

  /** The switch of setWaveType: None is the default branch, which asserts. */
  function ShapeOfChoice(choice: int): (r: Option<Shape>)
    ensures r.Some? <==> 0 <= choice < 6
    ensures r.Some? ==> ChoiceIndex(r.value) == choice
  {
    if choice == 0 then Some(Sine)
    else if choice == 1 then Some(Saw)
    else if choice == 2 then Some(Square)
    else if choice == 3 then Some(Triangle)
    else if choice == 4 then Some(Pinky)
    else if choice == 5 then Some(Ponky)
    else None
  }

  lemma ChoiceRoundTrip(s: Shape)
    ensures ShapeOfChoice(ChoiceIndex(s)) == Some(s)
  {
  }

  /** With a positive amp the saw has the sign of x, and it is zero exactly where x or amp is. */
  function SawWave(x: real, amp: real): (r: real)
    ensures amp > 0.0 ==> (r < 0.0 <==> x < 0.0)
    ensures r == 0.0 <==> x == 0.0 || amp == 0.0
  {
    amp * (x / Pi)
  }

  function SquareWave(x: real, amp: real): (r: real)
    ensures r == amp || r == -amp
    ensures amp > 0.0 ==> (r < 0.0 <==> x < 0.0)
  {
    amp * (if x < 0.0 then -1.0 else 1.0)
  }

  /** x is moved Delta further from zero (up when x >= 0, down otherwise), then scaled. */
  function TriangleWave(x: real, amp: real): (r: real)
    ensures amp > 0.0 ==> (r < 0.0 <==> x < 0.0)
  {
    amp * (if x >= 0.0 then x + Delta else x - Delta)
  }

  /** Pinky is silent wherever sin or cos vanishes. */
  function PinkyWave(trig: Trig, x: real, amp: real): (r: real)
    ensures trig.sin(x) == 0.0 || trig.cos(x) == 0.0 || amp == 0.0 ==> r == 0.0
  {
    trig.sin(x) * trig.cos(x) * trig.sin(x) * 5.0 * amp
  }

  /**
   * The C++ expression reads x in its cubic and cosine factors and also updates
   * it in its last factor, unsequenced; this reading takes the first factors on
   * the x passed in. Since x cubed and x pushed away from zero share their
   * sign, Ponky is silent at 0 and otherwise, with a positive amp, has the sign
   * of cos(5x).
   */
  function PonkyWave(trig: Trig, x: real, amp: real): (r: real)
    ensures x == 0.0 ==> r == 0.0
    ensures amp > 0.0 && x != 0.0 ==> (r > 0.0 <==> trig.cos(x * 5.0) > 0.0)
  {
    x * x * x * trig.cos(x * 5.0) * (if x >= 0.0 then x + Delta else x - Delta) * amp / 10.0
  }

  /** The installed generator applied to one argument: with a positive amp the saw, square and triangle follow the sign of x. */
  function Evaluate(g: Generator, trig: Trig, x: real): (r: real)
    ensures g.amp > 0.0 && (g.shape == Saw || g.shape == Square || g.shape == Triangle) ==> (r < 0.0 <==> x < 0.0)
  {
    match g.shape
    case Sine => trig.sin(x) * g.amp
    case Saw => SawWave(x, g.amp)
    case Square => SquareWave(x, g.amp)
    case Triangle => TriangleWave(x, g.amp)
    case Pinky => PinkyWave(trig, x, g.amp)
    case Ponky => PonkyWave(trig, x, g.amp)
  }

  /** Every shape is the unit-amplitude shape scaled by the captured amplitude. */
  lemma AmplitudeScales(g: Generator, trig: Trig, x: real)
    ensures Evaluate(g, trig, x) == g.amp * Evaluate(Generator(g.shape, 1.0), trig, x)
  {
    match g.shape
    case Sine =>
    case Saw =>
    case Square =>
    case Triangle =>
    case Pinky =>
      var s, c := trig.sin(x), trig.cos(x);
      assert s * c * s * 5.0 * g.amp == g.amp * (s * c * s * 5.0 * 1.0);
    case Ponky =>
      var c := trig.cos(x * 5.0);
      var y := if x >= 0.0 then x + Delta else x - Delta;
      assert x * x * x * c * y * g.amp / 10.0 == g.amp * (x * x * x * c * y * 1.0 / 10.0);
  }

  /** A generator installed with amplitude 0 is silent, whatever its shape. */
  lemma SilentAtZeroAmplitude(g: Generator, trig: Trig, x: real)
    requires g.amp == 0.0
    ensures Evaluate(g, trig, x) == 0.0
  {
    AmplitudeScales(g, trig, x);
  }

  /** Over the oscillator's argument range the saw stays within [-amp, amp]. */
  lemma SawBounded(x: real, amp: real)
    requires -Pi <= x <= Pi && 0.0 <= amp
    ensures -amp <= SawWave(x, amp) <= amp
    ensures SawWave(-Pi, amp) == -amp && SawWave(0.0, amp) == 0.0
  {
    var t := x / Pi;
    assert -1.0 <= t <= 1.0 by {
      assert t * Pi == x;
    }
    assert amp * t <= amp * 1.0;
    assert amp * -1.0 <= amp * t;
    assert SawWave(x, amp) == amp * t;
  }

  /** The triangle is odd away from zero: it jumps by 2 * amp * Delta across x = 0. */
  lemma TriangleOdd(x: real, amp: real)
    requires x != 0.0
    ensures TriangleWave(-x, amp) == -TriangleWave(x, amp)
    ensures TriangleWave(0.0, amp) == amp * Delta
  {
  }

  /** Its magnitude is |amp| times |x| pushed out by Delta, so it never reaches 0 unless amp does. */
  lemma TriangleMagnitude(x: real, amp: real)
    ensures Abs(TriangleWave(x, amp)) == Abs(amp) * (Abs(x) + Delta)
    ensures TriangleWave(x, amp) == 0.0 <==> amp == 0.0
  {
    var y := if x >= 0.0 then x + Delta else x - Delta;
    assert Abs(y) == Abs(x) + Delta;
    if amp < 0.0 {
      if y < 0.0 {
        assert amp * y > 0.0;
      } else {
        assert amp * y < 0.0;
      }
    } else if amp > 0.0 {
      if y < 0.0 {
        assert amp * y < 0.0;
      } else {
        assert amp * y > 0.0;
      }
    }
  }

  /** With a positive amplitude the triangle increases strictly with x. */
  lemma TriangleIncreasing(x: real, y: real, amp: real)
    requires x < y && amp > 0.0
    ensures TriangleWave(x, amp) < TriangleWave(y, amp)
  {
    var fx := if x >= 0.0 then x + Delta else x - Delta;
    var fy := if y >= 0.0 then y + Delta else y - Delta;
    assert fx < fy;
    assert amp * (fy - fx) > 0.0;
  }

  // ---------------------------------------------------------------------------
  // The four-shape variant (setWaveType(choice)): unit amplitude, gain applied later.
  // ---------------------------------------------------------------------------

  datatype BasicShape = BasicSine | BasicSaw | BasicSquare | BasicTriangle

  function BasicShapeOfChoice(choice: int): (r: Option<BasicShape>)
    ensures r.Some? <==> 0 <= choice < 4
    ensures r.Some? ==> r.value == [BasicSine, BasicSaw, BasicSquare, BasicTriangle][choice]
  {
    if choice == 0 then Some(BasicSine)
    else if choice == 1 then Some(BasicSaw)
    else if choice == 2 then Some(BasicSquare)
    else if choice == 3 then Some(BasicTriangle)
    else None
  }

  /** The four-shape generators at unit amplitude: the saw and square follow the sign of x, and the square is always 1 or -1. */
  function BasicEvaluate(s: BasicShape, trig: Trig, x: real): (r: real)
    ensures (s == BasicSaw || s == BasicSquare) ==> (r < 0.0 <==> x < 0.0)
    ensures s == BasicSquare ==> r == 1.0 || r == -1.0
  {
    match s
    case BasicSine => trig.sin(x)
    case BasicSaw => x / Pi
    case BasicSquare => if x < 0.0 then -1.0 else 1.0
    case BasicTriangle => Abs(x)
  }

  /** This variant's triangle is |x|: never negative, symmetric, zero only at zero. */
  lemma BasicTriangleShape(trig: Trig, x: real)
    ensures BasicEvaluate(BasicTriangle, trig, x) >= 0.0
    ensures BasicEvaluate(BasicTriangle, trig, -x) == BasicEvaluate(BasicTriangle, trig, x)
    ensures BasicEvaluate(BasicTriangle, trig, x) == 0.0 <==> x == 0.0
  {
  }

  /** Sine, saw and square of this variant are the six-shape ones at amplitude 1. */
  lemma BasicIsUnitAmplitude(s: BasicShape, trig: Trig, x: real)
    requires s != BasicTriangle
    ensures BasicEvaluate(s, trig, x) ==
      Evaluate(Generator(if s == BasicSine then Sine else if s == BasicSaw then Saw else Square, 1.0), trig, x)
  {
  }

  /** The two triangles are different shapes: they disagree for every negative x. */
  lemma TrianglesDiffer(trig: Trig, x: real)
    requires x < 0.0
    ensures BasicEvaluate(BasicTriangle, trig, x) > 0.0
    ensures Evaluate(Generator(Triangle, 1.0), trig, x) < 0.0
  {
  }
}
