/** The low-frequency oscillator of src/lfo.c: a bipolar modulation source
    whose phase advances before the value is read. */
module Lfos {
  import opened Numeric

  /** LFOWaveType; `Unrecognised` stands for any other integer a preset can store. */
  datatype LfoShape = Sine | Triangle | Saw | Square | Unrecognised(code: int)

  const MinRate: real := 0.1
  const MaxRate: real := 20.0

  /** The value held by an LFO's fields. */
  datatype LfoState = LfoState(phase: real, rate: real, depth: real, shape: LfoShape)
  {
    /** The phase advance of lfo_process: add rate/44100 and wrap once at 1. */
    function Advanced(): LfoState
    {
      var p := phase + rate / SampleRate;
      this.(phase := if p >= 1.0 then p - 1.0 else p)
    }

    /** What lfo_process returns once the phase has advanced. */
    function Output(m: Libm): real
    {
      Wave(shape, phase, m) * depth
    }
  }

  /** lfo_init: 1 Hz sine at depth 0. */
  const InitialLfo: LfoState := LfoState(0.0, 1.0, 0.0, Sine)

  /** The bipolar waveform of lfo_process at a phase; 0 for an unknown shape. */
  function Wave(shape: LfoShape, phase: real, m: Libm): real
  {
    match shape
    case Sine => m.sin(phase * 2.0 * 3.14159265)
    case Triangle => if phase < 0.5 then 4.0 * phase - 1.0 else 3.0 - 4.0 * phase
    case Saw => 2.0 * phase - 1.0
    case Square => if phase < 0.5 then 1.0 else -1.0
    case Unrecognised(_) => 0.0
  }

  /** Triangle, saw and square lie in [-1,1] on [0,1); only the sine depends on sinf. */
  lemma WaveBounded(shape: LfoShape, phase: real, m: Libm)
    requires !shape.Sine? && 0.0 <= phase < 1.0
    ensures -1.0 <= Wave(shape, phase, m) <= 1.0
  {
  }

  /** The LFO struct, updated in place by the lfo_* functions. */
  class Lfo {
    var phase: real
    var rate: real
    var depth: real
    var shape: LfoShape

    ghost function State(): LfoState
      reads this
    {
      LfoState(phase, rate, depth, shape)
    }

    /** The ranges the setters enforce, and the phase in [0,1). */
    ghost predicate Valid()
      reads this
    {
      MinRate <= rate <= MaxRate && 0.0 <= depth <= 1.0 && 0.0 <= phase < 1.0
    }

    /** lfo_init */
    constructor ()
      ensures Valid() && State() == InitialLfo
    {
      phase, rate, depth, shape := 0.0, 1.0, 0.0, Sine;
    }

    /** lfo_set_rate: clamps to [0.1, 20] Hz. */
    method SetRate(hz: real)
      requires Valid()
      modifies this
      ensures Valid()
      ensures State() == old(State()).(rate := Clamp(hz, MinRate, MaxRate))
    {
      var r := hz;
      if r < MinRate { r := MinRate; }
      if r > MaxRate { r := MaxRate; }
      rate := r;
    }

    /** lfo_set_depth: clamps to [0, 1]. */
    method SetDepth(d: real)
      requires Valid()
      modifies this
      ensures Valid()
      ensures State() == old(State()).(depth := Clamp(d, 0.0, 1.0))
    {
      var x := d;
      if x < 0.0 { x := 0.0; }
      if x > 1.0 { x := 1.0; }
      depth := x;
    }

    /** lfo_set_type */
    method SetShape(s: LfoShape)
      requires Valid()
      modifies this
      ensures Valid()
      ensures State() == old(State()).(shape := s)
    {
      shape := s;
    }

    /** Key-sync: the voice resets the phase to 0 on note-on. */
    method ResetPhase()
      requires Valid()
      modifies this
      ensures Valid()
      ensures State() == old(State()).(phase := 0.0)
    {
      phase := 0.0;
    }

    /** lfo_process: advance the phase (wrapping once, so it stays in
        [0,1)), then return the waveform at the NEW phase times depth. */
    method Process(m: Libm) returns (out: real)
      requires Valid()
      modifies this
      ensures Valid()
      ensures State() == old(State()).Advanced()
      ensures out == State().Output(m)
      ensures !shape.Sine? ==> -depth <= out <= depth
      ensures depth == 0.0 ==> out == 0.0
    {
      phase := phase + rate / SampleRate;
      if phase >= 1.0 {
        phase := phase - 1.0;
      }
      out := LfoState(phase, rate, depth, shape).Output(m);
      if !shape.Sine? {
        OutputBounded(State(), m);
      }
    }
  }

  /** Away from the sine, the output of an LFO whose phase is in [0,1)
      never exceeds its depth in magnitude. */
  lemma OutputBounded(s: LfoState, m: Libm)
    requires !s.shape.Sine? && 0.0 <= s.phase < 1.0 && s.depth >= 0.0
    ensures -s.depth <= s.Output(m) <= s.depth
  {
    var v, d := Wave(s.shape, s.phase, m), s.depth;
    WaveBounded(s.shape, s.phase, m);
    assert s.Output(m) == v * d;
    if v >= 0.0 {
      assert 0.0 <= v * d;
    } else {
      assert 0.0 <= (-v) * d <= 1.0 * d;
    }
    assert -d <= v * d;
  }
}
