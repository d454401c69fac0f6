/** The audio oscillator of src/oscillator.c: five waveforms read at the
    current phase, after which the phase advances by frequency/44100. */
module Oscillators {
  import opened Numeric

  /** WaveType; `Unrecognised` stands for any other integer a preset can store,
      for which osc_generate's switch leaves the sample at 0. */
  datatype WaveShape = Sine | Square | Saw | Triangle | Noise | Unrecognised(code: int)

  /** M_PI as the source spells it out. */
  const Pi: real := 3.14159265358979323846

  const MinPulseWidth: real := 0.05
  const MaxPulseWidth: real := 0.95

  /** 2^32 - 1, the divisor that maps a 32-bit seed onto [0,1]. */
  const U32Max: real := 4294967295.0

  /** The value held by an Oscillator's fields. */
  datatype OscState = OscState(phase: real, frequency: real, wave: WaveShape,
                               pulseWidth: real, noiseSeed: bv32)
  {
    /** The sample osc_generate returns: the waveform at the phase BEFORE it
        advances; noise steps the generator first and reads the new seed. */
    function Output(m: Libm): real
    {
      match wave
      case Sine => m.sin(2.0 * Pi * phase)
      case Square => if phase < pulseWidth then 1.0 else -1.0
      case Saw => 2.0 * phase - 1.0
      case Triangle => TriangleWave(phase)
      case Noise => NoiseValue(Xorshift32(noiseSeed))
      case Unrecognised(_) => 0.0
    }

    /** The state osc_generate leaves behind: phase + frequency/44100,
        wrapped once at 1, and the noise seed stepped when the wave is noise. */
    function Generated(): OscState
    {
      var p := phase + frequency / SampleRate;
      this.(phase := if p >= 1.0 then p - 1.0 else p,
            noiseSeed := if wave == Noise then Xorshift32(noiseSeed) else noiseSeed)
    }

    /** osc_set_pulse_width */
    function WithPulseWidth(w: real): OscState
    {
      this.(pulseWidth := Clamp(w, MinPulseWidth, MaxPulseWidth))
    }
  }

  /** osc_init */
  const InitialOsc: OscState := OscState(0.0, 440.0, Sine, 0.5, 12345)

  /** The three-piece triangle of osc_generate: 0 at phase 0, +1 at 1/4,
      -1 at 3/4, back to 0 at 1. */
  function TriangleWave(phase: real): real
  {
    if phase < 0.25 then 4.0 * phase
    else if phase < 0.75 then 2.0 - 4.0 * phase
    else 4.0 * phase - 4.0
  }

  /** generate_noise's scaling of a 32-bit seed onto the bipolar range:
      seed 0 gives -1 and seed 2^32-1 gives +1. */
  function NoiseValue(seed: bv32): (r: real)
    ensures -1.0 <= r <= 1.0
    ensures seed == 0 ==> r == -1.0
    ensures seed == 0xFFFF_FFFF ==> r == 1.0
  {
    var n := seed as int;
    assert 0 <= n <= 0xFFFF_FFFF;
    n as real / U32Max * 2.0 - 1.0
  }

  /** midi_to_freq: 440·2^((note-69)/12). */
  function MidiToFreq(m: Libm, note: int): (f: real)
    ensures m.Sound() && note == 69 ==> f == 440.0
  {
    440.0 * m.pow(2.0, (note - 69) as real / 12.0)
  }

  /** For phase in [0,1) the triangle stays in [-1,1]. */
  lemma TriangleBounded(phase: real)
    requires 0.0 <= phase < 1.0
    ensures -1.0 <= TriangleWave(phase) <= 1.0
  {
  }

  /** The triangle has no jump at 1/4 or 3/4: it never moves by more than
      4 times the phase distance, across the break points included. */
  lemma TriangleSlopeBounded(p: real, q: real)
    requires 0.0 <= p <= q < 1.0
    ensures -4.0 * (q - p) <= TriangleWave(q) - TriangleWave(p) <= 4.0 * (q - p)
  {
    if p < 0.25 && q >= 0.75 {
      assert TriangleWave(q) - TriangleWave(p) == 4.0 * q - 4.0 - 4.0 * p;
    } else if p < 0.25 && q >= 0.25 {
      assert TriangleWave(q) - TriangleWave(p) == 2.0 - 4.0 * q - 4.0 * p;
    } else if p < 0.75 && q >= 0.75 {
      assert TriangleWave(q) - TriangleWave(p) == 4.0 * q - 6.0 + 4.0 * p;
    }
  }

  /** Every waveform except the sine lies in [-1,1] for a phase in [0,1). */
  lemma OutputBounded(s: OscState, m: Libm)
    requires !s.wave.Sine? && 0.0 <= s.phase < 1.0
    ensures -1.0 <= s.Output(m) <= 1.0
  {
    if s.wave.Triangle? {
      TriangleBounded(s.phase);
    }
  }

  /** With 0 <= frequency < 44100 the phase advance wraps back into [0,1). */
  lemma GeneratedKeepsPhase(s: OscState)
    requires 0.0 <= s.phase < 1.0 && 0.0 <= s.frequency < SampleRate
    ensures 0.0 <= s.Generated().phase < 1.0
  {
    assert s.frequency / SampleRate < 1.0;
  }

  /** The Oscillator struct, updated in place by the osc_* functions. */
  class Oscillator {
    var phase: real
    var frequency: real
    var wave: WaveShape
    var pulseWidth: real
    var noiseSeed: bv32

    ghost function State(): OscState
      reads this
    {
      OscState(phase, frequency, wave, pulseWidth, noiseSeed)
    }

    /** osc_init: phase 0, 440 Hz, sine, 50% duty cycle, seed 12345. */
    constructor ()
      ensures State() == InitialOsc
    {
      phase, frequency, wave, pulseWidth, noiseSeed := 0.0, 440.0, Sine, 0.5, 12345;
    }

    /** osc_set_frequency: stores the frequency as given. */
    method SetFrequency(freq: real)
      modifies this
      ensures State() == old(State()).(frequency := freq)
    {
      frequency := freq;
    }

    /** osc_set_type */
    method SetType(w: WaveShape)
      modifies this
      ensures State() == old(State()).(wave := w)
    {
      wave := w;
    }

    /** osc_set_pulse_width: clamps to [0.05, 0.95]. */
    method SetPulseWidth(width: real)
      modifies this
      ensures State() == old(State()).WithPulseWidth(width)
      ensures MinPulseWidth <= pulseWidth <= MaxPulseWidth
    {
      var w := width;
      if w < MinPulseWidth { w := MinPulseWidth; }
      if w > MaxPulseWidth { w := MaxPulseWidth; }
      pulseWidth := w;
    }

    /** osc_generate: the sample is taken at the current phase, then the
        phase advances and wraps once. */
    method Generate(m: Libm) returns (sample: real)
      modifies this
      ensures State() == old(State()).Generated()
      ensures sample == old(State()).Output(m)
      ensures old(wave).Square? ==> (sample == 1.0 <==> old(phase) < pulseWidth)
      ensures !old(wave).Sine? && 0.0 <= old(phase) < 1.0 ==> -1.0 <= sample <= 1.0
      ensures 0.0 <= old(phase) < 1.0 && 0.0 <= frequency < SampleRate ==> 0.0 <= phase < 1.0
    {
      sample := Waveform(m);
      AdvancePhase();
      if !old(wave).Sine? && 0.0 <= old(phase) < 1.0 {
        OutputBounded(old(State()), m);
      }
      if 0.0 <= old(phase) < 1.0 && 0.0 <= frequency < SampleRate {
        GeneratedKeepsPhase(old(State()));
      }
    }

    /** The switch of osc_generate: the sample of the current wave at the
        current phase; noise steps the generator's seed first. */
    method Waveform(m: Libm) returns (sample: real)
      modifies this`noiseSeed
      ensures sample == old(State()).Output(m)
      ensures noiseSeed == old(State()).Generated().noiseSeed
    {
      sample := 0.0;
      match wave {
        case Sine =>
          sample := m.sin(2.0 * Pi * phase);
        case Square =>
          sample := if phase < pulseWidth then 1.0 else -1.0;
        case Saw =>
          sample := 2.0 * phase - 1.0;
        case Triangle =>
          if phase < 0.25 {
            sample := 4.0 * phase;
          } else if phase < 0.75 {
            sample := 2.0 - 4.0 * phase;
          } else {
            sample := 4.0 * phase - 4.0;
          }
        case Noise =>
          noiseSeed := Xorshift32(noiseSeed);
          sample := NoiseValue(noiseSeed);
        case Unrecognised(_) =>
      }
    }

    /** The end of osc_generate: the phase advances by frequency/44100 and
        wraps once at 1. */
    method AdvancePhase()
      modifies this`phase
      ensures phase == old(State()).Generated().phase
    {
      phase := phase + frequency / SampleRate;
      if phase >= 1.0 {
        phase := phase - 1.0;
      }
    }
  }
}
