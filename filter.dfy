/** The Chamberlin state-variable filter of src/filter.c: four accumulators
    updated in a fixed order every sample, and two coefficients cached by
    the setters. */
module Filters {
  import opened Numeric
  import Oscillators

  /** FilterType; `Unrecognised` stands for any other integer a preset can
      store, for which filter_process falls back to the lowpass output. */
  datatype FilterType = Lowpass | Highpass | Bandpass | Unrecognised(code: int)

  const MaxFc: real := 0.9
  const MinQ: real := 0.05
  const MaxResonance: real := 0.99

  /** filter_update_fc: the cutoff in [0,1] maps exponentially onto
      20 Hz .. 20 kHz, fc = 2·sin(pi·freq/44100), capped at 0.9. */
  function Fc(m: Libm, cutoff: real): (fc: real)
    ensures fc <= MaxFc
  {
    var freq := 20.0 * m.pow(1000.0, cutoff);
    var c := 2.0 * m.sin(Oscillators.Pi * freq / SampleRate);
    if c > MaxFc then MaxFc else c
  }

  /** filter_update_q: q = 1 - resonance, floored at 0.05. */
  function Q(resonance: real): (q: real)
    ensures q >= MinQ
    ensures q == MinQ || q == 1.0 - resonance
    ensures 0.0 <= resonance ==> q <= 1.0
  {
    var q := 1.0 - resonance;
    if q < MinQ then MinQ else q
  }

  /** The value held by an SVFilter's fields. */
  datatype FilterState = FilterState(low: real, high: real, band: real, notch: real,
                                     cutoff: real, resonance: real, ftype: FilterType,
                                     fc: real, q: real)
  {
    /** The ranges the setters enforce, with q cached from the resonance. */
    ghost predicate Valid()
    {
      0.0 <= cutoff <= 1.0 && 0.0 <= resonance <= MaxResonance && q == Q(resonance) && fc <= MaxFc
    }

    /** fc is the coefficient of the current cutoff. */
    ghost predicate Coherent(m: Libm)
    {
      fc == Fc(m, cutoff)
    }

    /** filter_set_cutoff */
    function WithCutoff(m: Libm, c: real): FilterState
    {
      var c' := Clamp(c, 0.0, 1.0);
      this.(cutoff := c', fc := Fc(m, c'))
    }

    /** filter_set_resonance */
    function WithResonance(r: real): FilterState
    {
      var r' := Clamp(r, 0.0, MaxResonance);
      this.(resonance := r', q := Q(r'))
    }

    /** The accumulators after one filter_process step: low from the old
        band, high from the new low, band from the new high, notch from both. */
    function Processed(input: real): FilterState
    {
      var low' := low + fc * band;
      var high' := input - low' - q * band;
      var band' := fc * high' + band;
      this.(low := low', high := high', band := band', notch := high' + low')
    }

    /** The output filter_process selects; lowpass for an unknown tag. */
    function Selected(): real
    {
      match ftype
      case Lowpass => low
      case Highpass => high
      case Bandpass => band
      case Unrecognised(_) => low
    }
  }

  /** filter_init: accumulators zero, cutoff 0.5, resonance 0, lowpass. */
  function InitialFilter(m: Libm): FilterState
  {
    FilterState(0.0, 0.0, 0.0, 0.0, 0.5, 0.0, Lowpass, Fc(m, 0.5), Q(0.0))
  }

  /** The initial filter is in range and has q = 1 (no resonance). */
  lemma InitialFilterValid(m: Libm)
    ensures InitialFilter(m).Valid() && InitialFilter(m).Coherent(m)
    ensures InitialFilter(m).q == 1.0
  {
  }

  /** The setters keep the filter in range and its fc and q cached, and each
      touches only its own parameter and coefficient. */
  lemma SettersKeepValid(s: FilterState, m: Libm, c: real, r: real, t: FilterType)
    requires s.Valid() && s.Coherent(m)
    ensures s.WithCutoff(m, c).Valid() && s.WithCutoff(m, c).Coherent(m)
    ensures s.WithResonance(r).Valid() && s.WithResonance(r).Coherent(m)
    ensures s.(ftype := t).Valid() && s.(ftype := t).Coherent(m)
    ensures 0.05 <= s.WithResonance(r).q <= 1.0
  {
  }

  /** The filter settles on a constant input: with no band energy and the
      lowpass at the input, a step leaves low at the input, high and band at
      zero, and passes the input to the notch. */
  lemma RestsOnConstantInput(s: FilterState, x: real)
    requires s.band == 0.0 && s.low == x
    ensures s.Processed(x).low == x && s.Processed(x).high == 0.0
    ensures s.Processed(x).band == 0.0 && s.Processed(x).notch == x
  {
  }

  /** Every step keeps notch = high + low and leaves the parameters alone;
      and since band is updated from the new high, the new band differs from
      the old one by exactly fc times the new high. */
  lemma ProcessedRelations(s: FilterState, x: real)
    ensures var t := s.Processed(x);
      t.notch == t.high + t.low && t.band - s.band == s.fc * t.high &&
      t.high == x - t.low - s.q * s.band && t.low - s.low == s.fc * s.band &&
      t.cutoff == s.cutoff && t.resonance == s.resonance && t.ftype == s.ftype &&
      t.fc == s.fc && t.q == s.q
  {
  }

  /** The SVFilter struct, updated in place by the filter_* functions. */
  class SvFilter {
    var low: real
    var high: real
    var band: real
    var notch: real
    var cutoff: real
    var resonance: real
    var ftype: FilterType
    var fc: real
    var q: real

    ghost function State(): FilterState
      reads this
    {
      FilterState(low, high, band, notch, cutoff, resonance, ftype, fc, q)
    }

    /** filter_update_fc */
    method UpdateFc(m: Libm)
      modifies this
      ensures State() == old(State()).(fc := Fc(m, cutoff))
    {
      var freq := 20.0 * m.pow(1000.0, cutoff);
      fc := 2.0 * m.sin(Oscillators.Pi * freq / SampleRate);
      if fc > MaxFc {
        fc := MaxFc;
      }
    }

    /** filter_update_q */
    method UpdateQ()
      modifies this
      ensures State() == old(State()).(q := Q(resonance))
    {
      q := 1.0 - resonance;
      if q < MinQ {
        q := MinQ;
      }
    }

    /** filter_init */
    constructor (m: Libm)
      ensures State() == InitialFilter(m)
      ensures State().Valid() && State().Coherent(m)
    {
      low, high, band, notch := 0.0, 0.0, 0.0, 0.0;
      cutoff, resonance, ftype := 0.5, 0.0, Lowpass;
      new;
      UpdateFc(m);
      UpdateQ();
    }

    /** filter_set_cutoff: clamps to [0,1] and recomputes fc. */
    method SetCutoff(m: Libm, c: real)
      modifies this
      ensures State() == old(State()).WithCutoff(m, c)
      ensures old(State()).Valid() ==> State().Valid() && State().Coherent(m)
    {
      var x := c;
      if x < 0.0 { x := 0.0; }
      if x > 1.0 { x := 1.0; }
      cutoff := x;
      UpdateFc(m);
    }

    /** filter_set_resonance: clamps to [0,0.99] and recomputes q. */
    method SetResonance(r: real)
      modifies this
      ensures State() == old(State()).WithResonance(r)
      ensures old(State()).Valid() ==> State().Valid()
    {
      var x := r;
      if x < 0.0 { x := 0.0; }
      if x > MaxResonance { x := MaxResonance; }
      resonance := x;
      UpdateQ();
    }

    /** filter_set_type: only the output tag changes. */
    method SetType(t: FilterType)
      modifies this
      ensures State() == old(State()).(ftype := t)
    {
      ftype := t;
    }

    /** filter_process: one Chamberlin step, returning the selected output. */
    method Process(input: real) returns (out: real)
      modifies this
      ensures State() == old(State()).Processed(input)
      ensures out == State().Selected()
    {
      low := low + fc * band;
      high := input - low - q * band;
      band := fc * high + band;
      notch := high + low;
      match ftype {
        case Lowpass => out := low;
        case Highpass => out := high;
        case Bandpass => out := band;
        case Unrecognised(_) => out := low;
      }
    }
  }
}
