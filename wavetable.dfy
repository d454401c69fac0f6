/** The wavetable bank of src/wavetable.c: four tables of 64 frames of 256
    samples (a sine-triangle-saw-square morph, a pulse-width sweep, a
    harmonic series and a formant sweep), filled once, and a lookup that
    interpolates bilinearly between two neighbouring frames and two
    neighbouring samples. */
module Wavetables {
  import opened Numeric
  import Oscillators

  /** WT_FRAME_SIZE and WT_NUM_FRAMES */
  const FrameSize: int := 256
  const NumFrames: int := 64
  /** WT_COUNT, and the codes of WT_BASIC, WT_PWM, WT_HARMONICS and WT_FORMANT. */
  const TableCount: int := 4
  const BasicTable: int := 0
  const PwmTable: int := 1
  const HarmonicsTable: int := 2
  const FormantTable: int := 3

  /** wavetable_get: the table of a type code, WT_BASIC for a code past
      the last table. */
  function TableFor(code: nat): (t: nat)
    ensures t < TableCount
    ensures code < TableCount <==> t == code
    ensures code >= TableCount ==> t == BasicTable
  {
    if code >= TableCount then BasicTable else code
  }

  // ---------------------------------------------------------------------
  // Lookup

  /** wavetable_sample's phase wrap: the integer part is cut off toward
      zero, and a negative remainder is lifted by one. */
  function WrapPhase(phase: real): real
  {
    var p := phase - Trunc(phase) as real;
    if p < 0.0 then p + 1.0 else p
  }

  /** The wrap is the fractional part phase - floor(phase): it lies in
      [0,1), leaves a phase already there alone, and does not change when
      whole cycles are added. */
  lemma WrapPhaseIsFraction(phase: real, k: int)
    ensures WrapPhase(phase) == phase - phase.Floor as real
    ensures 0.0 <= WrapPhase(phase) < 1.0
    ensures 0.0 <= phase < 1.0 ==> WrapPhase(phase) == phase
    ensures WrapPhase(phase + k as real) == WrapPhase(phase)
  {
    FloorShift(phase, k);
    FractionOfWrap(phase);
    FractionOfWrap(phase + k as real);
  }

  /** floor(x + k) = floor(x) + k. */
  lemma FloorShift(x: real, k: int)
    ensures (x + k as real).Floor == x.Floor + k
  {
  }

  /** WrapPhase agrees with the fractional part. */
  lemma FractionOfWrap(x: real)
    ensures WrapPhase(x) == x - x.Floor as real
  {
    if x < 0.0 {
      var c := Trunc(x);
      assert c == -((-x).Floor);
      if c as real == x {
        assert x.Floor == c;
      } else {
        assert x.Floor == c - 1;
      }
    }
  }

  /** Where wavetable_sample reads: the two frames and the two samples it
      interpolates between, and how far it is between each pair. */
  datatype Lookup = Lookup(frameLo: int, frameHi: int, frameFrac: real,
                           sampleLo: int, sampleHi: int, sampleFrac: real)

  /** wavetable_sample's index arithmetic: the position is clamped to
      [0,1] and scaled onto the 64 frames, the wrapped phase onto the 256
      samples. The upper frame is clamped to the last one; the upper
      sample wraps round to the first one. */
  function Locate(position: real, phase: real): (l: Lookup)
    ensures 0 <= l.frameLo < NumFrames && 0 <= l.frameHi < NumFrames
    ensures l.frameHi == if l.frameLo + 1 >= NumFrames then NumFrames - 1 else l.frameLo + 1
    ensures 0.0 <= l.frameFrac < 1.0
    ensures 0 <= l.sampleLo < FrameSize && 0 <= l.sampleHi < FrameSize
    ensures l.sampleHi == (l.sampleLo + 1) % FrameSize
    ensures 0.0 <= l.sampleFrac < 1.0
  {
    var pos := Clamp(position, 0.0, 1.0);
    var ph := WrapPhase(phase);
    FractionOfWrap(phase);
    var framePos := pos * (NumFrames - 1) as real;
    var frameLo := Trunc(framePos);
    var frameHi := if frameLo + 1 >= NumFrames then NumFrames - 1 else frameLo + 1;
    var samplePos := ph * FrameSize as real;
    var sampleLo := Trunc(samplePos);
    var sampleHi := (sampleLo + 1) % FrameSize;
    Lookup(frameLo, frameHi, framePos - frameLo as real, sampleLo, sampleHi, samplePos - sampleLo as real)
  }

  /** The position selects the frame: position 0 (or below) reads the
      first frame alone, position 1 (or above) the last frame alone, with
      no wrap back to the first. */
  lemma LocateEnds(position: real, phase: real)
    ensures position <= 0.0 ==> Locate(position, phase).frameLo == 0 && Locate(position, phase).frameFrac == 0.0
    ensures position >= 1.0 ==> Locate(position, phase).frameLo == NumFrames - 1 &&
                                Locate(position, phase).frameHi == NumFrames - 1
    ensures 0.0 <= phase < 1.0 ==> Locate(position, phase).sampleLo == (phase * FrameSize as real).Floor
  {
    FractionOfWrap(phase);
  }

  /** The straight-line blend a + t·(b - a). */
  function Lerp(a: real, b: real, t: real): real
  {
    a + t * (b - a)
  }

  /** A blend with t in [0,1] lies between its ends, and is the first end
      at t = 0. */
  lemma LerpBetween(a: real, b: real, t: real)
    requires 0.0 <= t <= 1.0
    ensures Min(a, b) <= Lerp(a, b, t) <= Max(a, b)
    ensures t == 0.0 ==> Lerp(a, b, t) == a
  {
    if a <= b {
      MulNonneg(1.0 - t, b - a);
      MulNonneg(t, b - a);
      assert (1.0 - t) * (b - a) == (b - a) - t * (b - a);
    } else {
      MulNonneg(1.0 - t, a - b);
      MulNonneg(t, a - b);
      assert t * (b - a) == -(t * (a - b));
      assert (1.0 - t) * (a - b) == (a - b) - t * (a - b);
    }
  }

  function Min(a: real, b: real): real { if a <= b then a else b }
  function Max(a: real, b: real): real { if a <= b then b else a }

  /** The bilinear blend of wavetable_sample: along the samples in both
      frames, then across the frames. */
  function Bilinear(s00: real, s01: real, s10: real, s11: real, l: Lookup): real
  {
    Lerp(Lerp(s00, s01, l.sampleFrac), Lerp(s10, s11, l.sampleFrac), l.frameFrac)
  }

  /** The result never leaves the range of the four samples it blends. */
  lemma BilinearBounded(s00: real, s01: real, s10: real, s11: real, l: Lookup)
    requires 0.0 <= l.sampleFrac <= 1.0 && 0.0 <= l.frameFrac <= 1.0
    ensures Min(Min(s00, s01), Min(s10, s11)) <= Bilinear(s00, s01, s10, s11, l)
    ensures Bilinear(s00, s01, s10, s11, l) <= Max(Max(s00, s01), Max(s10, s11))
  {
    var s0 := Lerp(s00, s01, l.sampleFrac);
    var s1 := Lerp(s10, s11, l.sampleFrac);
    LerpBetween(s00, s01, l.sampleFrac);
    LerpBetween(s10, s11, l.sampleFrac);
    LerpBetween(s0, s1, l.frameFrac);
  }

  // ---------------------------------------------------------------------
  // Frame contents

  /** (float)i / WT_FRAME_SIZE: the phase of sample i. */
  function Phase(i: int): real
  {
    i as real / FrameSize as real
  }

  /** The angle 2·pi·phase·cycles the generators take the sine of. */
  function Angle(phase: real, cycles: real): real
  {
    2.0 * Oscillators.Pi * phase * cycles
  }

  /** The four amounts of a frame of the basic table. */
  datatype Morph = Morph(sine: real, tri: real, saw: real, sqr: real)

  /** wavetables_init's basic-table morph: the frame position f/63 goes
      from sine to triangle below 0.333, from triangle to saw below 0.666,
      and from saw to square above. */
  function BasicMorph(f: int): Morph
  {
    var pos := f as real / (NumFrames - 1) as real;
    if pos < 0.333 then
      var t := pos / 0.333; Morph(1.0 - t, t, 0.0, 0.0)
    else if pos < 0.666 then
      var t := (pos - 0.333) / 0.333; Morph(0.0, 1.0 - t, t, 0.0)
    else
      var t := (pos - 0.666) / 0.334; Morph(0.0, 0.0, 1.0 - t, t)
  }

  /** Across the 64 frames the morph amounts are a convex mix: none is
      negative and they sum to 1. The first frame is a pure sine and the
      last a pure square. */
  lemma BasicMorphConvex(f: int)
    requires 0 <= f < NumFrames
    ensures var mx := BasicMorph(f);
      0.0 <= mx.sine && 0.0 <= mx.tri && 0.0 <= mx.saw && 0.0 <= mx.sqr &&
      mx.sine + mx.tri + mx.saw + mx.sqr == 1.0
    ensures BasicMorph(0) == Morph(1.0, 0.0, 0.0, 0.0)
    ensures BasicMorph(NumFrames - 1) == Morph(0.0, 0.0, 0.0, 1.0)
  {
    var pos := f as real / 63.0;
    assert pos <= 1.0;
    assert (1.0 - 0.666) / 0.334 == 1.0;
  }

  /** 2·pi·phase: the angle of one cycle at the given phase. */
  function Turn(phase: real): real
  {
    2.0 * Oscillators.Pi * phase
  }

  /** The triangle generate_basic_frame mixes in: -1 at phase 0, +1 at
      phase 0.5, back down to -1. */
  function Triangle(p: real): real
  {
    if p < 0.5 then 4.0 * p - 1.0 else 3.0 - 4.0 * p
  }

  /** generate_basic_frame's sample i: each waveform whose amount is
      positive, weighted by its amount, added in turn. */
  function BasicSample(m: Libm, mx: Morph, i: int): real
  {
    var p := Phase(i);
    SineTerm(m, mx, p) + TriTerm(mx, p) + SawTerm(mx, p) + SqrTerm(mx, p)
  }

  /** The four weighted waveforms; one whose amount is not positive adds
      nothing. */
  function SineTerm(m: Libm, mx: Morph, p: real): real
  {
    if mx.sine > 0.0 then Weigh(mx.sine, m.sin(Turn(p))) else 0.0
  }

  function TriTerm(mx: Morph, p: real): real
  {
    if mx.tri > 0.0 then Weigh(mx.tri, Triangle(p)) else 0.0
  }

  function SawTerm(mx: Morph, p: real): real
  {
    if mx.saw > 0.0 then Weigh(mx.saw, 2.0 * p - 1.0) else 0.0
  }

  function SqrTerm(mx: Morph, p: real): real
  {
    if mx.sqr > 0.0 then Weigh(mx.sqr, if p < 0.5 then 1.0 else -1.0) else 0.0
  }

  /** A waveform value scaled by its amount in the mix. */
  function Weigh(amount: real, wave: real): real
  {
    amount * wave
  }

  /** wavetables_init's pulse width of PWM frame f: 5% to 95%. */
  function PulseWidth(f: int): real
  {
    0.05 + 0.9 * f as real / (NumFrames - 1) as real
  }

  /** generate_pwm_frame's sample i. */
  function PwmSample(pw: real, i: int): real
  {
    if Phase(i) < pw then 1.0 else -1.0
  }

  /** PWM frame f holds +1 exactly where the sample phase is below its
      pulse width, and -1 elsewhere; the width grows from 5% at the first
      frame to 95% at the last. */
  lemma PwmFrameShape(f: int, i: int)
    requires 0 <= f < NumFrames
    ensures PwmSample(PulseWidth(f), i) == 1.0 <==> (i as real) / 256.0 < 0.05 + 0.9 * (f as real) / 63.0
    ensures PwmSample(PulseWidth(f), i) == -1.0 <==> !((i as real) / 256.0 < 0.05 + 0.9 * (f as real) / 63.0)
    ensures 0.05 <= PulseWidth(f) <= 0.95
    ensures PulseWidth(0) == 0.05 && PulseWidth(NumFrames - 1) == 0.95
  {
    assert f as real / 63.0 <= 1.0;
  }

  /** wavetables_init's harmonic count of frame f, in integer arithmetic. */
  function HarmonicCount(f: nat): nat
  {
    1 + 31 * f / (NumFrames - 1)
  }

  /** The harmonic table adds harmonics from frame to frame: one at the
      first frame, 32 at the last, never fewer at a later frame. */
  lemma HarmonicCountRange(f: int, g: int)
    requires 0 <= f <= g < NumFrames
    ensures 1 <= HarmonicCount(f) <= HarmonicCount(g) <= 32
    ensures HarmonicCount(0) == 1 && HarmonicCount(NumFrames - 1) == 32
  {
    assert 31 * f <= 31 * g <= 31 * 63;
    DivMonotone(31 * f, 31 * g, 63);
  }

  /** Integer division by a positive divisor is monotone. */
  lemma DivMonotone(a: int, b: int, d: int)
    requires 0 <= a <= b && 0 < d
    ensures a / d <= b / d
  {
    var qa, qb := a / d, b / d;
    assert d * qa <= a;
    assert b < d * qb + d;
    assert d * qa < d * (qb + 1);
  }

  /** generate_harmonic_frame before normalising: sample i is the sum over
      harmonics h = 1..n of sin(2·pi·phase·h)/h, added in that order. */
  function RawHarmonic(m: Libm, n: nat, i: int): real
  {
    if n == 0 then 0.0 else RawHarmonic(m, n - 1, i) + Weigh(1.0 / n as real, m.sin(Angle(Phase(i), n as real)))
  }

  /** generate_formant_frame before normalising: a saw, plus the formant
      and one and a half times the formant as sines, halved. */
  function RawFormant(m: Libm, formant: real, i: int): real
  {
    var p := Phase(i);
    var sample := 2.0 * p - 1.0;
    var sample' := sample + Weigh(0.5, m.sin(Angle(p, formant)));
    var sample'' := sample' + Weigh(0.25, m.sin(Angle(p, formant * 1.5)));
    sample'' * 0.5
  }

  /** wavetables_init's formant of frame f: 2 to 12 times the fundamental. */
  function FormantFreq(f: int): real
  {
    2.0 + 10.0 * f as real / (NumFrames - 1) as real
  }

  function Abs(x: real): real { if x < 0.0 then -x else x }

  /** The normalising pass's running maximum of |frame[i]| over the first
      k samples, starting from 0. */
  function Peak(raw: seq<real>, k: nat): real
    requires k <= |raw|
  {
    if k == 0 then 0.0 else
      var p := Peak(raw, k - 1);
      if Abs(raw[k - 1]) > p then Abs(raw[k - 1]) else p
  }

  /** The running maximum is the largest magnitude seen so far. */
  lemma {:induction false} PeakIsMax(raw: seq<real>, k: nat)
    requires k <= |raw|
    ensures 0.0 <= Peak(raw, k)
    ensures forall i :: 0 <= i < k ==> Abs(raw[i]) <= Peak(raw, k)
    ensures Peak(raw, k) == 0.0 || exists i :: 0 <= i < k && Abs(raw[i]) == Peak(raw, k)
  {
    if k > 0 {
      PeakIsMax(raw, k - 1);
    }
  }

  /** The normalising pass: every sample divided by the peak magnitude,
      unless the frame is silent. */
  function Normalised(raw: seq<real>): (r: seq<real>)
    ensures |r| == |raw|
  {
    var p := Peak(raw, |raw|);
    if p > 0.0 then seq(|raw|, i requires 0 <= i < |raw| => raw[i] / p) else raw
  }

  /** After the pass every sample lies in [-1,1], and a frame that was
      not silent reaches 1 in magnitude somewhere. */
  lemma NormalisedBounded(raw: seq<real>)
    ensures forall i :: 0 <= i < |raw| ==> -1.0 <= Normalised(raw)[i] <= 1.0
    ensures Peak(raw, |raw|) > 0.0 ==> exists i :: 0 <= i < |raw| && Abs(Normalised(raw)[i]) == 1.0
  {
    var p := Peak(raw, |raw|);
    PeakIsMax(raw, |raw|);
    if p > 0.0 {
      forall i | 0 <= i < |raw|
        ensures -1.0 <= Normalised(raw)[i] <= 1.0
      {
        DivBounded(raw[i], p);
      }
      var j :| 0 <= j < |raw| && Abs(raw[j]) == p;
      assert Normalised(raw)[j] == raw[j] / p;
      DivByOwnSize(raw[j], p);
    }
  }

  /** x divided by its own magnitude has magnitude 1. */
  lemma DivByOwnSize(x: real, p: real)
    requires p > 0.0 && Abs(x) == p
    ensures Abs(x / p) == 1.0
  {
    if x >= 0.0 {
      assert x / p == 1.0;
    } else {
      assert x / p == -1.0;
    }
  }

  /** |x| <= p with p > 0 puts x / p in [-1,1]. */
  lemma DivBounded(x: real, p: real)
    requires p > 0.0 && Abs(x) <= p
    ensures -1.0 <= x / p <= 1.0
  {
  }

  /** The harmonic and formant frames, normalised. */
  function HarmonicFrame(m: Libm, n: nat): seq<real>
  {
    Normalised(seq(FrameSize, i => RawHarmonic(m, n, i)))
  }

  function FormantFrame(m: Libm, formant: real): seq<real>
  {
    Normalised(seq(FrameSize, i => RawFormant(m, formant, i)))
  }

  /** Sample i of frame f of table t once wavetables_init has run. */
  function TableSample(m: Libm, t: int, f: int, i: int): real
    requires 0 <= f < NumFrames && 0 <= i < FrameSize
  {
    if t == BasicTable then BasicSample(m, BasicMorph(f), i)
    else if t == PwmTable then PwmSample(PulseWidth(f), i)
    else if t == HarmonicsTable then HarmonicFrame(m, HarmonicCount(f))[i]
    else FormantFrame(m, FormantFreq(f))[i]
  }

  /** Every harmonic and formant sample of the filled bank lies in [-1,1]. */
  lemma NormalisedTables(m: Libm, f: int, i: int)
    requires 0 <= f < NumFrames && 0 <= i < FrameSize
    ensures -1.0 <= TableSample(m, HarmonicsTable, f, i) <= 1.0
    ensures -1.0 <= TableSample(m, FormantTable, f, i) <= 1.0
  {
    HarmonicCountRange(f, f);
    NormalisedBounded(seq(FrameSize, i => RawHarmonic(m, HarmonicCount(f), i)));
    NormalisedBounded(seq(FrameSize, i => RawFormant(m, FormantFreq(f), i)));
  }

  /** A waveform value in [-1,1] weighted by a non-negative amount stays
      within that amount of zero. */
  lemma WeighBounded(amount: real, wave: real)
    requires 0.0 <= amount && -1.0 <= wave <= 1.0
    ensures -amount <= Weigh(amount, wave) <= amount
  {
    MulNonneg(amount, 1.0 - wave);
    MulNonneg(amount, wave + 1.0);
  }

  /** A basic frame mixes waveforms that each stay in [-1,1] with amounts
      that sum to 1, so its samples stay in [-1,1]. */
  lemma BasicSampleBounded(m: Libm, f: int, i: int)
    requires m.Sound() && 0 <= f < NumFrames && 0 <= i < FrameSize
    ensures -1.0 <= BasicSample(m, BasicMorph(f), i) <= 1.0
  {
    var mx := BasicMorph(f);
    BasicMorphConvex(f);
    var p := Phase(i);
    assert 0.0 <= p < 1.0;
    assert -1.0 <= Triangle(p) <= 1.0;
    WeighBounded(mx.sine, m.sin(Turn(p)));
    WeighBounded(mx.tri, Triangle(p));
    WeighBounded(mx.saw, 2.0 * p - 1.0);
    WeighBounded(mx.sqr, if p < 0.5 then 1.0 else -1.0);
  }

  /** Once wavetables_init has run, every sample of every table lies in
      [-1,1]. */
  lemma TableSampleBounded(m: Libm, t: int, f: int, i: int)
    requires m.Sound() && 0 <= f < NumFrames && 0 <= i < FrameSize
    ensures -1.0 <= TableSample(m, t, f, i) <= 1.0
  {
    if t == BasicTable {
      BasicSampleBounded(m, f, i);
    } else if t != PwmTable {
      NormalisedTables(m, f, i);
    }
  }

  // ---------------------------------------------------------------------
  // The bank

  /** The static wavetables[WT_COUNT] array, their type tags and the
      initialized flag. */
  class WavetableBank {
    /** data[t, f, i]: sample i of frame f of table t. */
    const data: array3<real>
    var types: seq<int>
    var initialized: bool

    ghost predicate Valid()
      reads this
    {
      data.Length0 == TableCount && data.Length1 == NumFrames && data.Length2 == FrameSize && |types| == TableCount
    }

    /** Frame f of table t holds row. */
    ghost predicate RowIs(t: int, f: int, row: seq<real>)
      reads this, data
      requires Valid() && 0 <= t < TableCount && 0 <= f < NumFrames && |row| == FrameSize
    {
      forall i :: 0 <= i < FrameSize ==> data[t, f, i] == row[i]
    }

    /** Table t holds what wavetables_init puts there. */
    ghost predicate TableFilled(m: Libm, t: int)
      reads this, data
      requires Valid() && 0 <= t < TableCount
    {
      forall f, i :: 0 <= f < NumFrames && 0 <= i < FrameSize ==> data[t, f, i] == TableSample(m, t, f, i)
    }

    /** Every table filled, each tagged with its own type. */
    ghost predicate Filled(m: Libm)
      reads this, data
    {
      Valid() && types == [BasicTable, PwmTable, HarmonicsTable, FormantTable] &&
      forall t :: 0 <= t < TableCount ==> TableFilled(m, t)
    }

    /** The bank before wavetables_init: static storage, zeroed. */
    constructor ()
      ensures Valid() && !initialized && types == [0, 0, 0, 0]
      ensures forall t, f, i :: 0 <= t < TableCount && 0 <= f < NumFrames && 0 <= i < FrameSize ==> data[t, f, i] == 0.0
    {
      data := new real[TableCount, NumFrames, FrameSize]((t, f, i) => 0.0);
      types := [0, 0, 0, 0];
      initialized := false;
    }

    /** wavetables_init: fills the four tables once; a second call finds
        the flag set and changes nothing. */
    method Init(m: Libm)
      requires Valid()
      modifies this, data
      ensures Valid() && initialized
      ensures old(initialized) ==> unchanged(this, data)
      ensures !old(initialized) ==> Filled(m)
    {
      if initialized {
        return;
      }
      FillBasic(m);
      types := types[BasicTable := BasicTable];
      FillPwm();
      types := types[PwmTable := PwmTable];
      assert TableFilled(m, BasicTable) && TableFilled(m, PwmTable);
      FillHarmonics(m);
      types := types[HarmonicsTable := HarmonicsTable];
      assert TableFilled(m, BasicTable) && TableFilled(m, PwmTable);
      FillFormant(m);
      types := types[FormantTable := FormantTable];
      assert TableFilled(m, BasicTable) && TableFilled(m, PwmTable) && TableFilled(m, HarmonicsTable);
      assert types == [BasicTable, PwmTable, HarmonicsTable, FormantTable];
      initialized := true;
    }

    /** The basic-table loop of wavetables_init: each frame's morph
        amounts, then generate_basic_frame. */
    method FillBasic(m: Libm)
      requires Valid()
      modifies data
      ensures TableFilled(m, BasicTable)
      ensures forall t, f, i :: 0 <= t < TableCount && t != BasicTable && 0 <= f < NumFrames && 0 <= i < FrameSize ==>
        data[t, f, i] == old(data[t, f, i])
    {
      for f := 0 to NumFrames
        invariant forall g, i :: 0 <= g < f && 0 <= i < FrameSize ==> data[BasicTable, g, i] == TableSample(m, BasicTable, g, i)
        invariant forall t, g, i :: 0 <= t < TableCount && t != BasicTable && 0 <= g < NumFrames && 0 <= i < FrameSize ==>
          data[t, g, i] == old(data[t, g, i])
      {
        var pos := f as real / (NumFrames - 1) as real;
        var sine, tri, saw, sqr := 0.0, 0.0, 0.0, 0.0;
        if pos < 0.333 {
          var t := pos / 0.333;
          sine := 1.0 - t;
          tri := t;
        } else if pos < 0.666 {
          var t := (pos - 0.333) / 0.333;
          tri := 1.0 - t;
          saw := t;
        } else {
          var t := (pos - 0.666) / 0.334;
          saw := 1.0 - t;
          sqr := t;
        }
        assert Morph(sine, tri, saw, sqr) == BasicMorph(f);
        GenerateBasicFrame(m, BasicTable, f, Morph(sine, tri, saw, sqr));
      }
    }

    /** generate_basic_frame, writing frame f of table t. */
    method GenerateBasicFrame(m: Libm, t: int, f: int, mx: Morph)
      requires Valid() && 0 <= t < TableCount && 0 <= f < NumFrames
      modifies data
      ensures forall i :: 0 <= i < FrameSize ==> data[t, f, i] == BasicSample(m, mx, i)
      ensures forall a, b, i :: 0 <= a < TableCount && 0 <= b < NumFrames && 0 <= i < FrameSize && (a != t || b != f) ==>
        data[a, b, i] == old(data[a, b, i])
    {
      for i := 0 to FrameSize
        invariant forall k :: 0 <= k < i ==> data[t, f, k] == BasicSample(m, mx, k)
        invariant forall a, b, k :: 0 <= a < TableCount && 0 <= b < NumFrames && 0 <= k < FrameSize && (a != t || b != f) ==>
          data[a, b, k] == old(data[a, b, k])
      {
        var phase := i as real / FrameSize as real;
        assert phase == Phase(i);
        var sample := 0.0;
        if mx.sine > 0.0 {
          var angle := 2.0 * Oscillators.Pi * phase;
          assert angle == Turn(phase);
          assert mx.sine * m.sin(angle) == Weigh(mx.sine, m.sin(Turn(phase)));
          sample := sample + mx.sine * m.sin(angle);
        }
        assert sample == SineTerm(m, mx, phase);
        if mx.tri > 0.0 {
          var tri := if phase < 0.5 then 4.0 * phase - 1.0 else 3.0 - 4.0 * phase;
          assert mx.tri * tri == Weigh(mx.tri, Triangle(phase));
          sample := sample + mx.tri * tri;
        }
        assert sample == SineTerm(m, mx, phase) + TriTerm(mx, phase);
        if mx.saw > 0.0 {
          assert mx.saw * (2.0 * phase - 1.0) == Weigh(mx.saw, 2.0 * phase - 1.0);
          sample := sample + mx.saw * (2.0 * phase - 1.0);
        }
        assert sample == SineTerm(m, mx, phase) + TriTerm(mx, phase) + SawTerm(mx, phase);
        if mx.sqr > 0.0 {
          assert mx.sqr * (if phase < 0.5 then 1.0 else -1.0) == Weigh(mx.sqr, if phase < 0.5 then 1.0 else -1.0);
          sample := sample + mx.sqr * (if phase < 0.5 then 1.0 else -1.0);
        }
        assert sample == BasicSample(m, mx, i);
        data[t, f, i] := sample;
      }
    }

    /** The PWM-table loop of wavetables_init. */
    method FillPwm()
      requires Valid()
      modifies data
      ensures forall m: Libm :: TableFilled(m, PwmTable)
      ensures forall t, f, i :: 0 <= t < TableCount && t != PwmTable && 0 <= f < NumFrames && 0 <= i < FrameSize ==>
        data[t, f, i] == old(data[t, f, i])
    {
      for f := 0 to NumFrames
        invariant forall g, i :: 0 <= g < f && 0 <= i < FrameSize ==> data[PwmTable, g, i] == PwmSample(PulseWidth(g), i)
        invariant forall t, g, i :: 0 <= t < TableCount && t != PwmTable && 0 <= g < NumFrames && 0 <= i < FrameSize ==>
          data[t, g, i] == old(data[t, g, i])
      {
        var pw := 0.05 + 0.9 * f as real / (NumFrames - 1) as real;
        GeneratePwmFrame(PwmTable, f, pw);
      }
    }

    /** generate_pwm_frame, writing frame f of table t. */
    method GeneratePwmFrame(t: int, f: int, pw: real)
      requires Valid() && 0 <= t < TableCount && 0 <= f < NumFrames
      modifies data
      ensures forall i :: 0 <= i < FrameSize ==> data[t, f, i] == PwmSample(pw, i)
      ensures forall a, b, i :: 0 <= a < TableCount && 0 <= b < NumFrames && 0 <= i < FrameSize && (a != t || b != f) ==>
        data[a, b, i] == old(data[a, b, i])
    {
      for i := 0 to FrameSize
        invariant forall k :: 0 <= k < i ==> data[t, f, k] == PwmSample(pw, k)
        invariant forall a, b, k :: 0 <= a < TableCount && 0 <= b < NumFrames && 0 <= k < FrameSize && (a != t || b != f) ==>
          data[a, b, k] == old(data[a, b, k])
      {
        var phase := i as real / FrameSize as real;
        data[t, f, i] := if phase < pw then 1.0 else -1.0;
      }
    }

    /** The harmonics-table loop of wavetables_init. */
    method FillHarmonics(m: Libm)
      requires Valid()
      modifies data
      ensures TableFilled(m, HarmonicsTable)
      ensures forall t, f, i :: 0 <= t < TableCount && t != HarmonicsTable && 0 <= f < NumFrames && 0 <= i < FrameSize ==>
        data[t, f, i] == old(data[t, f, i])
    {
      for f := 0 to NumFrames
        invariant forall g, i :: 0 <= g < f && 0 <= i < FrameSize ==> data[HarmonicsTable, g, i] == TableSample(m, HarmonicsTable, g, i)
        invariant forall t, g, i :: 0 <= t < TableCount && t != HarmonicsTable && 0 <= g < NumFrames && 0 <= i < FrameSize ==>
          data[t, g, i] == old(data[t, g, i])
      {
        var harmonics := 1 + (31 * f / (NumFrames - 1));
        GenerateHarmonicFrame(m, HarmonicsTable, f, harmonics);
      }
    }

    /** generate_harmonic_frame, writing frame f of table t: a zeroed
        frame, each harmonic added across it in turn, then normalised. */
    method GenerateHarmonicFrame(m: Libm, t: int, f: int, n: nat)
      requires Valid() && 0 <= t < TableCount && 0 <= f < NumFrames
      modifies data
      ensures forall i :: 0 <= i < FrameSize ==> data[t, f, i] == HarmonicFrame(m, n)[i]
      ensures forall a, b, i :: 0 <= a < TableCount && 0 <= b < NumFrames && 0 <= i < FrameSize && (a != t || b != f) ==>
        data[a, b, i] == old(data[a, b, i])
    {
      for i := 0 to FrameSize
        invariant forall k :: 0 <= k < i ==> data[t, f, k] == 0.0
        invariant forall a, b, k :: 0 <= a < TableCount && 0 <= b < NumFrames && 0 <= k < FrameSize && (a != t || b != f) ==>
          data[a, b, k] == old(data[a, b, k])
      {
        data[t, f, i] := 0.0;
      }
      for h := 1 to n + 1
        invariant forall k :: 0 <= k < FrameSize ==> data[t, f, k] == RawHarmonic(m, h - 1, k)
        invariant forall a, b, k :: 0 <= a < TableCount && 0 <= b < NumFrames && 0 <= k < FrameSize && (a != t || b != f) ==>
          data[a, b, k] == old(data[a, b, k])
      {
        var amp := 1.0 / h as real;
        for i := 0 to FrameSize
          invariant forall k :: 0 <= k < i ==> data[t, f, k] == RawHarmonic(m, h, k)
          invariant forall k :: i <= k < FrameSize ==> data[t, f, k] == RawHarmonic(m, h - 1, k)
          invariant forall a, b, k :: 0 <= a < TableCount && 0 <= b < NumFrames && 0 <= k < FrameSize && (a != t || b != f) ==>
            data[a, b, k] == old(data[a, b, k])
        {
          var phase := i as real / FrameSize as real;
          assert phase == Phase(i);
          var angle := 2.0 * Oscillators.Pi * phase * h as real;
          assert angle == Angle(phase, h as real);
          assert amp * m.sin(angle) == Weigh(amp, m.sin(angle));
          data[t, f, i] := data[t, f, i] + amp * m.sin(angle);
        }
      }
      Normalise(t, f, seq(FrameSize, i => RawHarmonic(m, n, i)));
    }

    /** The formant-table loop of wavetables_init. */
    method FillFormant(m: Libm)
      requires Valid()
      modifies data
      ensures TableFilled(m, FormantTable)
      ensures forall t, f, i :: 0 <= t < TableCount && t != FormantTable && 0 <= f < NumFrames && 0 <= i < FrameSize ==>
        data[t, f, i] == old(data[t, f, i])
    {
      for f := 0 to NumFrames
        invariant forall g, i :: 0 <= g < f && 0 <= i < FrameSize ==> data[FormantTable, g, i] == TableSample(m, FormantTable, g, i)
        invariant forall t, g, i :: 0 <= t < TableCount && t != FormantTable && 0 <= g < NumFrames && 0 <= i < FrameSize ==>
          data[t, g, i] == old(data[t, g, i])
      {
        var formant := 2.0 + 10.0 * f as real / (NumFrames - 1) as real;
        GenerateFormantFrame(m, FormantTable, f, formant);
      }
    }

    /** generate_formant_frame, writing frame f of table t. */
    method GenerateFormantFrame(m: Libm, t: int, f: int, formant: real)
      requires Valid() && 0 <= t < TableCount && 0 <= f < NumFrames
      modifies data
      ensures forall i :: 0 <= i < FrameSize ==> data[t, f, i] == FormantFrame(m, formant)[i]
      ensures forall a, b, i :: 0 <= a < TableCount && 0 <= b < NumFrames && 0 <= i < FrameSize && (a != t || b != f) ==>
        data[a, b, i] == old(data[a, b, i])
    {
      for i := 0 to FrameSize
        invariant forall k :: 0 <= k < i ==> data[t, f, k] == RawFormant(m, formant, k)
        invariant forall a, b, k :: 0 <= a < TableCount && 0 <= b < NumFrames && 0 <= k < FrameSize && (a != t || b != f) ==>
          data[a, b, k] == old(data[a, b, k])
      {
        var phase := i as real / FrameSize as real;
        assert phase == Phase(i);
        var sample := 2.0 * phase - 1.0;
        ghost var saw := sample;
        var angle := 2.0 * Oscillators.Pi * phase * formant;
        assert angle == Angle(phase, formant);
        sample := sample + 0.5 * m.sin(angle);
        assert sample == saw + Weigh(0.5, m.sin(Angle(phase, formant)));
        ghost var resonant := sample;
        angle := 2.0 * Oscillators.Pi * phase * formant * 1.5;
        assert angle == Angle(phase, formant * 1.5);
        sample := sample + 0.25 * m.sin(angle);
        assert sample == resonant + Weigh(0.25, m.sin(Angle(phase, formant * 1.5)));
        assert sample * 0.5 == RawFormant(m, formant, i);
        data[t, f, i] := sample * 0.5;
      }
      Normalise(t, f, seq(FrameSize, i => RawFormant(m, formant, i)));
    }

    /** Every sample of table t lies in [-1,1]. */
    ghost predicate TableBounded(t: int)
      reads this, data
      requires Valid() && 0 <= t < TableCount
    {
      forall f, i :: 0 <= f < NumFrames && 0 <= i < FrameSize ==> -1.0 <= data[t, f, i] <= 1.0
    }

    /** The filled bank never holds a sample outside [-1,1], so no
        lookup returns one. */
    lemma FilledIsBounded(m: Libm, t: int)
      requires Filled(m) && m.Sound() && 0 <= t < TableCount
      ensures TableBounded(t)
    {
      forall f, i | 0 <= f < NumFrames && 0 <= i < FrameSize
        ensures -1.0 <= data[t, f, i] <= 1.0
      {
        assert TableFilled(m, t);
        TableSampleBounded(m, t, f, i);
      }
    }

    /** wavetable_sample on table t: the bilinear blend of the four
        samples Locate picks, which therefore never leaves the range of
        the table. */
    method Sample(t: int, position: real, phase: real) returns (out: real)
      requires Valid() && 0 <= t < TableCount
      ensures var l := Locate(position, phase);
        out == Bilinear(data[t, l.frameLo, l.sampleLo], data[t, l.frameLo, l.sampleHi],
                        data[t, l.frameHi, l.sampleLo], data[t, l.frameHi, l.sampleHi], l)
      ensures TableBounded(t) ==> -1.0 <= out <= 1.0
    {
      var l := Locate(position, phase);
      var s00 := data[t, l.frameLo, l.sampleLo];
      var s01 := data[t, l.frameLo, l.sampleHi];
      var s10 := data[t, l.frameHi, l.sampleLo];
      var s11 := data[t, l.frameHi, l.sampleHi];
      var s0 := Lerp(s00, s01, l.sampleFrac);
      var s1 := Lerp(s10, s11, l.sampleFrac);
      out := Lerp(s0, s1, l.frameFrac);
      BilinearBounded(s00, s01, s10, s11, l);
    }

    /** The normalising pass shared by generate_harmonic_frame and
        generate_formant_frame: find the peak magnitude, then divide the
        frame by it unless it is 0. */
    method Normalise(t: int, f: int, ghost raw: seq<real>)
      requires Valid() && 0 <= t < TableCount && 0 <= f < NumFrames && |raw| == FrameSize
      requires forall i :: 0 <= i < FrameSize ==> data[t, f, i] == raw[i]
      modifies data
      ensures forall i :: 0 <= i < FrameSize ==> data[t, f, i] == Normalised(raw)[i]
      ensures forall a, b, i :: 0 <= a < TableCount && 0 <= b < NumFrames && 0 <= i < FrameSize && (a != t || b != f) ==>
        data[a, b, i] == old(data[a, b, i])
    {
      var maxVal := 0.0;
      for i := 0 to FrameSize
        invariant maxVal == Peak(raw, i)
      {
        var mag := if data[t, f, i] < 0.0 then -data[t, f, i] else data[t, f, i];
        if mag > maxVal {
          maxVal := mag;
        }
      }
      if maxVal > 0.0 {
        for i := 0 to FrameSize
          invariant forall k :: 0 <= k < i ==> data[t, f, k] == raw[k] / maxVal
          invariant forall k :: i <= k < FrameSize ==> data[t, f, k] == raw[k]
          invariant forall a, b, k :: 0 <= a < TableCount && 0 <= b < NumFrames && 0 <= k < FrameSize && (a != t || b != f) ==>
            data[a, b, k] == old(data[a, b, k])
        {
          data[t, f, i] := data[t, f, i] / maxVal;
        }
      }
    }
  }
}
