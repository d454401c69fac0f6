/** The polyphonic engine of src/synth.c: four voices, the global patch
    parameters new notes pick up, voice allocation (first free voice, else
    steal the oldest), note-off lookup, the normalised mix, and the setters
    that fan a parameter out to every voice.
    The C struct embeds its voices by value, so the Synth holds them as a
    sequence of VoiceState values and steps each one with the functions the
    Voice class is proved against. */
module Synths {
  import opened Numeric
  import opened Oscillators
  import opened Envelopes
  import opened Filters
  import opened Voices
  import opened Wrappers

  /** NUM_VOICES */
  const NumVoices: int := 4

  /** Every voice is ready (see VoiceState.Ready). */
  ghost predicate AllReady(vs: seq<VoiceState>)
  {
    forall i :: 0 <= i < |vs| ==> vs[i].Ready()
  }

  /** The index of the first inactive voice, or |vs| when all are active. */
  function FirstInactive(vs: seq<VoiceState>): (r: nat)
    ensures r <= |vs|
    ensures forall j :: 0 <= j < r ==> vs[j].Active()
    ensures r < |vs| ==> !vs[r].Active()
  {
    if |vs| == 0 then 0
    else if !vs[0].Active() then 0
    else 1 + FirstInactive(vs[1..])
  }

  /** The index the stealing scan of find_voice ends on after looking at
      the first n voices: the oldest, the earliest one on a tie. */
  function OldestIn(vs: seq<VoiceState>, n: nat): (r: nat)
    requires 1 <= n <= |vs|
    ensures r < n
    ensures forall j :: 0 <= j < n ==> vs[j].age <= vs[r].age
    ensures forall j :: 0 <= j < r ==> vs[j].age < vs[r].age
  {
    if n == 1 then 0
    else
      var o := OldestIn(vs, n - 1);
      if vs[n - 1].age > vs[o].age then n - 1 else o
  }

  /** find_voice: the first inactive voice, else the oldest. */
  function ChosenVoice(vs: seq<VoiceState>): nat
    requires |vs| >= 1
  {
    var f := FirstInactive(vs);
    if f < |vs| then f else OldestIn(vs, |vs|)
  }

  /** find_voice_by_note: the first active voice holding `note`. */
  function FirstHolding(vs: seq<VoiceState>, note: int): (r: Option<nat>)
    ensures r.Some? ==> r.value < |vs| && vs[r.value].note == note && vs[r.value].Active()
    ensures r.Some? ==> forall j :: 0 <= j < r.value ==> !(vs[j].note == note && vs[j].Active())
    ensures r.None? ==> forall j :: 0 <= j < |vs| ==> !(vs[j].note == note && vs[j].Active())
  {
    if |vs| == 0 then None
    else if vs[0].note == note && vs[0].Active() then Some(0)
    else match FirstHolding(vs[1..], note)
      case None => None
      case Some(i) => Some(i + 1)
  }

  /** The per-voice writes the setters fan out: osc_set_type on osc or
      osc2, the voice's osc_mix or osc2_detune, or the three filter setters. */
  datatype VoiceEdit =
    | OscWave(wave: WaveShape)
    | Osc2Wave(wave: WaveShape)
    | OscMix(mix: real)
    | Osc2Detune(cents: real)
    | FilterSettings(m: Libm, cutoff: real, resonance: real, ftype: FilterType)

  /** One voice after an edit. */
  function Edited(v: VoiceState, e: VoiceEdit): VoiceState
  {
    match e
    case OscWave(w) => v.(oscs := v.oscs.(osc := v.oscs.osc.(wave := w)))
    case Osc2Wave(w) => v.(oscs := v.oscs.(osc2 := v.oscs.osc2.(wave := w)))
    case OscMix(x) => v.(settings := v.settings.(oscMix := x))
    case Osc2Detune(c) => v.(settings := v.settings.(osc2Detune := c))
    case FilterSettings(m, c, r, t) => v.(filter := v.filter.WithCutoff(m, c).WithResonance(r).(ftype := t))
  }

  /** Every voice after the same edit. */
  function EditedAll(vs: seq<VoiceState>, e: VoiceEdit): (r: seq<VoiceState>)
    ensures |r| == |vs|
  {
    seq(|vs|, i requires 0 <= i < |vs| => Edited(vs[i], e))
  }

  /** No edit touches what Ready constrains. */
  lemma EditKeepsReady(v: VoiceState, e: VoiceEdit)
    requires v.Ready()
    ensures Edited(v, e).Ready()
    ensures Edited(v, e).note == v.note && Edited(v, e).age == v.age && Edited(v, e).env == v.env
  {
  }

  /** An edit of every voice keeps them all ready. */
  lemma EditedAllReady(vs: seq<VoiceState>, e: VoiceEdit)
    requires AllReady(vs)
    ensures AllReady(EditedAll(vs, e))
  {
    forall i | 0 <= i < |vs|
      ensures EditedAll(vs, e)[i].Ready()
    {
      EditKeepsReady(vs[i], e);
    }
  }

  /** The voices after the loop of synth_process has looked at the first
      k of them, given each voice's voice_process result in `steps`: the
      active ones among the first k replaced by their next state. */
  function SteppedFirst(vs: seq<VoiceState>, steps: seq<VoiceStep>, k: nat): (r: seq<VoiceState>)
    requires |vs| == |steps|
    ensures |r| == |vs|
  {
    seq(|vs|, j requires 0 <= j < |vs| => if j < k && vs[j].Active() then steps[j].next else vs[j])
  }

  /** The sum of the samples of the active voices among the first k. */
  function ActiveSum(vs: seq<VoiceState>, steps: seq<VoiceStep>, k: nat): real
    requires k <= |vs| == |steps|
  {
    if k == 0 then 0.0
    else ActiveSum(vs, steps, k - 1) + (if vs[k - 1].Active() then steps[k - 1].out else 0.0)
  }

  /** How many of the first k voices are active. */
  function ActiveCount(vs: seq<VoiceState>, k: nat): (n: nat)
    requires k <= |vs|
    ensures n <= k
  {
    if k == 0 then 0
    else ActiveCount(vs, k - 1) + (if vs[k - 1].Active() then 1 else 0)
  }

  /** voice_process applied to each voice. */
  function VoiceSteps(vs: seq<VoiceState>, m: Libm): (r: seq<VoiceStep>)
    requires AllReady(vs) && m.Sound()
    ensures |r| == |vs|
    ensures forall i :: 0 <= i < |vs| ==> r[i].next.Ready()
  {
    seq(|vs|, i requires 0 <= i < |vs| => vs[i].Stepped(m))
  }

  /** The output of synth_process: the mean of the active voices'
      samples (0 when none is active) times the volume. */
  function Normalise(sum: real, count: nat, volume: real): real
  {
    (if count > 0 then sum / (count as real) else 0.0) * volume
  }

  /** The value held by a Synth's fields. */
  datatype SynthState = SynthState(voices: seq<VoiceState>,
                                   waveType: WaveShape, waveType2: WaveShape,
                                   oscMix: real, osc2Detune: real,
                                   filterCutoff: real, filterResonance: real, filterType: FilterType,
                                   attack: real, decay: real, sustain: real, release: real,
                                   volume: real)
  {
    /** NUM_VOICES ready voices. */
    ghost predicate Ready()
    {
      |voices| == NumVoices && AllReady(voices)
    }

    /** The patch synth_note_on copies into the voice it picks before
        voice_note_on: both wave types, the oscillator mix and detune, the
        filter settings and the amplitude ADSR. */
    function Configured(v: VoiceState, m: Libm): VoiceState
    {
      var v1 := Edited(Edited(v, OscWave(waveType)), Osc2Wave(waveType2));
      var v2 := Edited(Edited(v1, OscMix(oscMix)), Osc2Detune(osc2Detune));
      var v3 := Edited(v2, FilterSettings(m, filterCutoff, filterResonance, filterType));
      v3.(env := v3.env.WithAdsr(attack, decay, sustain, release))
    }

    /** synth_note_off: the first active voice holding the note is released. */
    function NotedOff(note: int): SynthState
      requires Ready()
    {
      match FirstHolding(voices, note)
      case None => this
      case Some(i) => this.(voices := voices[i := voices[i].NotedOff()])
    }

    /** synth_note_on: velocity 0 is a note-off; otherwise the chosen voice
        is configured from the patch and started. */
    function NotedOn(m: Libm, note: int, velocity: int): SynthState
      requires Ready()
    {
      if velocity == 0 then NotedOff(note)
      else
        var i := ChosenVoice(voices);
        this.(voices := voices[i := Configured(voices[i], m).NotedOn(m, note, velocity)])
    }

    /** synth_process: every active voice stepped once; the output is the
        mean of their samples (0 when none is active) times the volume. */
    function Processed(m: Libm): SynthStep
      requires Ready() && m.Sound()
    {
      MixedWith(VoiceSteps(voices, m))
    }

    /** synth_process given what voice_process does to each voice. */
    function MixedWith(steps: seq<VoiceStep>): SynthStep
      requires |steps| == |voices|
    {
      SynthStep(this.(voices := SteppedFirst(voices, steps, |voices|)),
                Normalise(ActiveSum(voices, steps, |voices|), ActiveCount(voices, |voices|), volume))
    }

    /** synth_set_wave_type */
    function WithWaveType(t: WaveShape): SynthState
    {
      this.(waveType := t, voices := EditedAll(voices, OscWave(t)))
    }

    /** synth_set_wave_type2 */
    function WithWaveType2(t: WaveShape): SynthState
    {
      this.(waveType2 := t, voices := EditedAll(voices, Osc2Wave(t)))
    }

    /** synth_set_osc_mix: clamped to [0, 1]. */
    function WithOscMix(mix: real): SynthState
    {
      var x := Clamp(mix, 0.0, 1.0);
      this.(oscMix := x, voices := EditedAll(voices, OscMix(x)))
    }

    /** synth_set_osc2_detune: clamped to [-100, 100] cents. */
    function WithOsc2Detune(cents: real): SynthState
    {
      var x := Clamp(cents, -100.0, 100.0);
      this.(osc2Detune := x, voices := EditedAll(voices, Osc2Detune(x)))
    }

    /** synth_set_filter: stored as given; each voice's filter clamps. */
    function WithFilter(m: Libm, cutoff: real, resonance: real, t: FilterType): SynthState
    {
      this.(filterCutoff := cutoff, filterResonance := resonance, filterType := t,
            voices := EditedAll(voices, FilterSettings(m, cutoff, resonance, t)))
    }

    /** synth_set_adsr: globals only, stored as given. */
    function WithAdsr(a: real, d: real, s: real, r: real): SynthState
    {
      this.(attack := a, decay := d, sustain := s, release := r)
    }

    /** synth_set_volume: clamped to [0, 1]. */
    function WithVolume(vol: real): SynthState
    {
      this.(volume := Clamp(vol, 0.0, 1.0))
    }
  }

  /** The Synth after synth_process, with the sample it returned. */
  datatype SynthStep = SynthStep(next: SynthState, out: real)

  /** synth_init */
  function InitialSynth(m: Libm): SynthState
  {
    SynthState(seq(NumVoices, _ => InitialVoice(m)), Saw, Square, 0.0, 0.0, 0.7, 0.2, Lowpass,
               0.01, 0.1, 0.7, 0.3, 0.5)
  }

  /** A fresh synth has four ready, silent voices. */
  lemma InitialSynthReady(m: Libm)
    ensures InitialSynth(m).Ready()
    ensures forall i :: 0 <= i < NumVoices ==> !InitialSynth(m).voices[i].Active()
  {
    InitialVoiceIdle(m);
  }

  /** find_voice: when some voice is inactive, the lowest-index inactive
      one; when all are active, one of maximum age, with no earlier voice
      of that age. */
  lemma FindVoicePolicy(vs: seq<VoiceState>)
    requires |vs| >= 1
    ensures ChosenVoice(vs) < |vs|
    ensures (exists j :: 0 <= j < |vs| && !vs[j].Active()) ==>
      !vs[ChosenVoice(vs)].Active() && forall j :: 0 <= j < ChosenVoice(vs) ==> vs[j].Active()
    ensures (forall j :: 0 <= j < |vs| ==> vs[j].Active()) ==>
      (forall j :: 0 <= j < |vs| ==> vs[j].age <= vs[ChosenVoice(vs)].age) &&
      (forall j :: 0 <= j < ChosenVoice(vs) ==> vs[j].age < vs[ChosenVoice(vs)].age)
  {
  }

  /** synth_note_on with velocity 0 is synth_note_off. With a non-zero
      velocity, the voice find_voice picks gets the patch's wave types,
      mix, detune, filter settings (clamped by the filter) and floored
      ADSR, then the note, the velocity and age 0 and both envelopes in
      Attack; every other voice and every global is unchanged, and the
      synth stays ready. */
  lemma NoteOnEffect(s: SynthState, m: Libm, note: int, velocity: int)
    requires s.Ready()
    ensures s.NotedOn(m, note, velocity).Ready()
    ensures velocity == 0 ==> s.NotedOn(m, note, velocity) == s.NotedOff(note)
    ensures velocity != 0 ==>
      var i := ChosenVoice(s.voices);
      var r := s.NotedOn(m, note, velocity);
      var v := r.voices[i];
      r == s.(voices := r.voices) &&
      (forall j :: 0 <= j < NumVoices && j != i ==> r.voices[j] == s.voices[j]) &&
      v.note == note && v.velocity == velocity && v.age == 0 &&
      v.oscs.osc.wave == s.waveType && v.oscs.osc2.wave == s.waveType2 &&
      v.settings == s.voices[i].settings.(oscMix := s.oscMix, osc2Detune := s.osc2Detune) &&
      v.filter.cutoff == Clamp(s.filterCutoff, 0.0, 1.0) &&
      v.filter.resonance == Clamp(s.filterResonance, 0.0, MaxResonance) &&
      v.filter.ftype == s.filterType &&
      v.env.attack == (if s.attack > MinTime then s.attack else MinTime) &&
      v.env.decay == (if s.decay > MinTime then s.decay else MinTime) &&
      v.env.release == (if s.release > MinTime then s.release else MinTime) &&
      v.env.sustain == s.sustain && v.env.stage == Attack &&
      v.filterEnv.stage == Attack
  {
    if velocity != 0 {
      var i := ChosenVoice(s.voices);
      FindVoicePolicy(s.voices);
      var c := s.Configured(s.voices[i], m);
      EditKeepsReady(s.voices[i], OscWave(s.waveType));
      assert c.Ready();
    } else {
      NoteOffEffect(s, note);
    }
  }

  /** synth_note_off releases exactly the first active voice holding the
      note (its note becomes -1 and both envelopes leave their stages as
      env_gate_off says); with no such voice nothing changes. */
  lemma NoteOffEffect(s: SynthState, note: int)
    requires s.Ready()
    ensures s.NotedOff(note).Ready()
    ensures FirstHolding(s.voices, note).None? ==> s.NotedOff(note) == s
    ensures FirstHolding(s.voices, note).Some? ==>
      var i := FirstHolding(s.voices, note).value;
      var r := s.NotedOff(note);
      r == s.(voices := r.voices) &&
      r.voices[i] == s.voices[i].NotedOff() && r.voices[i].note == -1 &&
      forall j :: 0 <= j < NumVoices && j != i ==> r.voices[j] == s.voices[j]
  {
  }

  /** The count of active voices is zero exactly when none of the first
      k is active, and then their sum is zero. */
  lemma {:induction false} ActiveCountZero(vs: seq<VoiceState>, steps: seq<VoiceStep>, k: nat)
    requires k <= |vs| == |steps|
    ensures ActiveCount(vs, k) == 0 <==> forall j :: 0 <= j < k ==> !vs[j].Active()
    ensures ActiveCount(vs, k) == 0 ==> ActiveSum(vs, steps, k) == 0.0
  {
    if k > 0 {
      ActiveCountZero(vs, steps, k - 1);
    }
  }

  /** sum lies in [-b·n, b·n]. */
  predicate WithinScaled(sum: real, b: real, n: real)
  {
    -b * n <= sum <= b * n
  }

  /** When every active voice's sample lies in [-b, b], the sum the loop
      builds lies in [-b·count, b·count]. */
  lemma {:induction false} SumBounded(vs: seq<VoiceState>, steps: seq<VoiceStep>, k: nat, b: real)
    requires k <= |vs| == |steps|
    requires forall j :: 0 <= j < |vs| && vs[j].Active() ==> -b <= steps[j].out <= b
    ensures WithinScaled(ActiveSum(vs, steps, k), b, ActiveCount(vs, k) as real)
  {
    if k > 0 {
      SumBounded(vs, steps, k - 1, b);
      AddWithinBound(ActiveSum(vs, steps, k - 1), ActiveCount(vs, k - 1) as real, steps[k - 1].out, b,
                     vs[k - 1].Active(), ActiveSum(vs, steps, k), ActiveCount(vs, k) as real);
    }
  }

  /** Adding one sample in [-b, b] to a sum within c·[-b, b] gives a sum
      within (c + 1)·[-b, b]; adding nothing keeps the bound. */
  lemma AddWithinBound(sum: real, c: real, x: real, b: real, added: bool, total: real, n: real)
    requires WithinScaled(sum, b, c) && (added ==> -b <= x <= b)
    requires total == (if added then sum + x else sum)
    requires n == (if added then c + 1.0 else c)
    ensures WithinScaled(total, b, n)
  {
    if added {
      assert b * n == b * c + b;
    }
  }

  /** A product with a positive factor has the sign of the other factor. */
  lemma SignOfFactor(x: real, c: real)
    requires c > 0.0 && x * c >= 0.0
    ensures x >= 0.0
  {
  }

  /** The normalisation of synth_process: a sum of count samples in
      [-b, b], divided by count and scaled by a volume in [0, 1], stays
      in [-b, b]. */
  lemma AverageBounded(sum: real, count: nat, volume: real, b: real)
    requires 0.0 <= volume <= 1.0 && 0.0 <= b
    requires WithinScaled(sum, b, count as real)
    ensures -b <= Normalise(sum, count, volume) <= b
  {
    if count > 0 {
      var c := count as real;
      var avg := sum / c;
      assert sum == avg * c;
      SignOfFactor(b - avg, c);
      SignOfFactor(avg + b, c);
      ScaleKeepsBound(avg, volume, b);
    }
  }

  /** Scaling by a factor in [0, 1] keeps a value within [-b, b]. */
  lemma ScaleKeepsBound(x: real, v: real, b: real)
    requires -b <= x <= b && 0.0 <= v <= 1.0
    ensures -b <= x * v <= b
  {
    MulNonneg(b - x, v);
    MulNonneg(x + b, v);
    MulNonneg(b, 1.0 - v);
    assert b - x * v == (b - x) * v + b * (1.0 - v);
    assert x * v + b == (x + b) * v + b * (1.0 - v);
  }

  /** synth_process: active voices take their next state, inactive ones
      are not stepped, and the synth stays ready; with no active voice the
      output is 0 and nothing changes. Stated for any per-voice results;
      Processed(m) passes VoiceSteps. */
  lemma ProcessSteps(s: SynthState, steps: seq<VoiceStep>)
    requires s.Ready() && |steps| == NumVoices
    requires forall j :: 0 <= j < NumVoices ==> steps[j].next.Ready()
    ensures s.MixedWith(steps).next.Ready()
    ensures s.MixedWith(steps).next == s.(voices := s.MixedWith(steps).next.voices)
    ensures forall j :: 0 <= j < NumVoices ==>
      s.MixedWith(steps).next.voices[j] == if s.voices[j].Active() then steps[j].next else s.voices[j]
    ensures (forall j :: 0 <= j < NumVoices ==> !s.voices[j].Active()) ==>
      s.MixedWith(steps).out == 0.0 && s.MixedWith(steps).next == s
  {
    ActiveCountZero(s.voices, steps, |s.voices|);
    if forall j :: 0 <= j < NumVoices ==> !s.voices[j].Active() {
      assert SteppedFirst(s.voices, steps, |s.voices|) == s.voices;
    }
  }

  /** The output of synth_process is the volume times the mean of the
      active voices' samples, so when each of those lies in [-b, b] and the
      volume is in [0, 1] the output lies in [-b, b] too: the averaging
      keeps the mix from clipping. */
  lemma ProcessBounded(s: SynthState, steps: seq<VoiceStep>, b: real)
    requires |steps| == |s.voices| && 0.0 <= s.volume <= 1.0 && 0.0 <= b
    requires forall j :: 0 <= j < |s.voices| && s.voices[j].Active() ==> -b <= steps[j].out <= b
    ensures -b <= s.MixedWith(steps).out <= b
  {
    SumBounded(s.voices, steps, |s.voices|, b);
    AverageBounded(ActiveSum(s.voices, steps, |s.voices|), ActiveCount(s.voices, |s.voices|), s.volume, b);
  }

  /** The setters: mix, detune and volume are clamped; wave types, mix,
      detune and the filter settings reach every voice; the ADSR and
      volume setters touch the globals only. All keep the synth ready. */
  lemma SettersEffect(s: SynthState, m: Libm, t: WaveShape, x: real, cutoff: real, res: real,
                      ft: FilterType, a: real, d: real, sl: real, r: real)
    requires s.Ready()
    ensures var u := s.WithWaveType(t);
      u.Ready() && u.waveType == t && forall i :: 0 <= i < NumVoices ==> u.voices[i].oscs.osc.wave == t
    ensures var u := s.WithWaveType2(t);
      u.Ready() && u.waveType2 == t && forall i :: 0 <= i < NumVoices ==> u.voices[i].oscs.osc2.wave == t
    ensures var u := s.WithOscMix(x);
      u.Ready() && 0.0 <= u.oscMix <= 1.0 && (0.0 <= x <= 1.0 ==> u.oscMix == x) &&
      forall i :: 0 <= i < NumVoices ==> u.voices[i].settings.oscMix == u.oscMix
    ensures var u := s.WithOsc2Detune(x);
      u.Ready() && -100.0 <= u.osc2Detune <= 100.0 && (-100.0 <= x <= 100.0 ==> u.osc2Detune == x) &&
      forall i :: 0 <= i < NumVoices ==> u.voices[i].settings.osc2Detune == u.osc2Detune
    ensures var u := s.WithFilter(m, cutoff, res, ft);
      u.Ready() && u.filterCutoff == cutoff && u.filterResonance == res && u.filterType == ft &&
      forall i :: 0 <= i < NumVoices ==>
        u.voices[i].filter.cutoff == Clamp(cutoff, 0.0, 1.0) &&
        u.voices[i].filter.resonance == Clamp(res, 0.0, MaxResonance) &&
        u.voices[i].filter.ftype == ft
    ensures var u := s.WithAdsr(a, d, sl, r);
      u.Ready() && u.voices == s.voices && u.attack == a && u.decay == d && u.sustain == sl && u.release == r
    ensures var u := s.WithVolume(x);
      u.Ready() && u.voices == s.voices && 0.0 <= u.volume <= 1.0 && (0.0 <= x <= 1.0 ==> u.volume == x)
  {
    EditedAllReady(s.voices, OscWave(t));
    EditedAllReady(s.voices, Osc2Wave(t));
    EditedAllReady(s.voices, OscMix(Clamp(x, 0.0, 1.0)));
    EditedAllReady(s.voices, Osc2Detune(Clamp(x, -100.0, 100.0)));
    EditedAllReady(s.voices, FilterSettings(m, cutoff, res, ft));
  }

  /** One more voice in the running sum and count: an active voice adds
      its sample and one, an idle one adds nothing. */
  lemma AddOneVoice(vs: seq<VoiceState>, steps: seq<VoiceStep>, i: nat, mix: real, count: nat)
    requires i < |vs| == |steps| && mix == ActiveSum(vs, steps, i) && count == ActiveCount(vs, i)
    ensures vs[i].Active() ==> ActiveSum(vs, steps, i + 1) == mix + steps[i].out
    ensures vs[i].Active() ==> ActiveCount(vs, i + 1) == count + 1
    ensures !vs[i].Active() ==> ActiveSum(vs, steps, i + 1) == mix && ActiveCount(vs, i + 1) == count
  {
  }

  /** The voice loop of synth_process over the voice array: each active
      voice is stepped once and its sample added to the sum; the active ones
      are counted. */
  method StepVoices(vs: seq<VoiceState>, m: Libm) returns (r: seq<VoiceState>, mix: real, activeCount: nat)
    requires |vs| == NumVoices && AllReady(vs) && m.Sound()
    ensures r == SteppedFirst(vs, VoiceSteps(vs, m), |vs|)
    ensures AllReady(r)
    ensures mix == ActiveSum(vs, VoiceSteps(vs, m), |vs|)
    ensures activeCount == ActiveCount(vs, |vs|)
    ensures activeCount == 0 ==> mix == 0.0
  {
    ghost var steps := VoiceSteps(vs, m);
    r := vs;
    mix := 0.0;
    activeCount := 0;
    var i := 0;
    while i < NumVoices
      invariant 0 <= i <= NumVoices && |r| == NumVoices
      invariant forall j :: 0 <= j < NumVoices ==>
        r[j] == if j < i && vs[j].Active() then steps[j].next else vs[j]
      invariant mix == ActiveSum(vs, steps, i)
      invariant activeCount == ActiveCount(vs, i)
    {
      assert r[i] == vs[i];
      AddOneVoice(vs, steps, i, mix, activeCount);
      if r[i].Active() {
        var st := r[i].Stepped(m);
        r := r[i := st.next];
        mix := mix + st.out;
        activeCount := activeCount + 1;
      }
      i := i + 1;
    }
    assert r == SteppedFirst(vs, steps, NumVoices);
    ActiveCountZero(vs, steps, |vs|);
  }

  /** The Synth struct, updated in place by the synth_* functions. */
  class Synth {
    var voices: seq<VoiceState>
    var waveType: WaveShape
    var waveType2: WaveShape
    var oscMix: real
    var osc2Detune: real
    var filterCutoff: real
    var filterResonance: real
    var filterType: FilterType
    var attack: real
    var decay: real
    var sustain: real
    var release: real
    var volume: real

    ghost function State(): SynthState
      reads this
    {
      SynthState(voices, waveType, waveType2, oscMix, osc2Detune, filterCutoff, filterResonance,
                 filterType, attack, decay, sustain, release, volume)
    }

    ghost predicate Valid()
      reads this
    {
      State().Ready()
    }

    /** synth_init */
    constructor (m: Libm)
      ensures Valid() && State() == InitialSynth(m)
    {
      var vs: seq<VoiceState> := [];
      var i := 0;
      while i < NumVoices
        invariant 0 <= i <= NumVoices
        invariant vs == seq(i, _ => InitialVoice(m))
      {
        vs := vs + [InitialVoice(m)];
        i := i + 1;
      }
      voices := vs;
      waveType, waveType2 := Saw, Square;
      oscMix, osc2Detune := 0.0, 0.0;
      filterCutoff, filterResonance, filterType := 0.7, 0.2, Lowpass;
      attack, decay, sustain, release := 0.01, 0.1, 0.7, 0.3;
      volume := 0.5;
      new;
      InitialSynthReady(m);
    }

    /** find_voice */
    method FindVoice() returns (i: nat)
      requires Valid()
      ensures i == ChosenVoice(voices)
    {
      i := 0;
      while i < NumVoices
        invariant 0 <= i <= NumVoices
        invariant forall j :: 0 <= j < i ==> voices[j].Active()
      {
        if !voices[i].Active() {
          return;
        }
        i := i + 1;
      }
      var oldest := 0;
      i := 1;
      while i < NumVoices
        invariant 1 <= i <= NumVoices
        invariant oldest == OldestIn(voices, i)
      {
        if voices[i].age > voices[oldest].age {
          oldest := i;
        }
        i := i + 1;
      }
      i := oldest;
    }

    /** find_voice_by_note */
    method FindVoiceByNote(note: int) returns (r: Option<nat>)
      requires Valid()
      ensures r == FirstHolding(voices, note)
    {
      var i := 0;
      while i < NumVoices
        invariant 0 <= i <= NumVoices
        invariant forall j :: 0 <= j < i ==> !(voices[j].note == note && voices[j].Active())
      {
        if voices[i].note == note && voices[i].Active() {
          return Some(i);
        }
        i := i + 1;
      }
      return None;
    }

    /** synth_note_on */
    method NoteOn(m: Libm, note: int, velocity: int)
      requires Valid()
      modifies this`voices
      ensures Valid()
      ensures State() == old(State()).NotedOn(m, note, velocity)
    {
      NoteOnEffect(State(), m, note, velocity);
      if velocity == 0 {
        NoteOff(note);
        return;
      }
      var i := FindVoice();
      var v := voices[i];
      v := v.(oscs := v.oscs.(osc := v.oscs.osc.(wave := waveType)));
      v := v.(oscs := v.oscs.(osc2 := v.oscs.osc2.(wave := waveType2)));
      v := v.(settings := v.settings.(oscMix := oscMix));
      v := v.(settings := v.settings.(osc2Detune := osc2Detune));
      v := v.(filter := v.filter.WithCutoff(m, filterCutoff));
      v := v.(filter := v.filter.WithResonance(filterResonance));
      v := v.(filter := v.filter.(ftype := filterType));
      v := v.(env := v.env.WithAdsr(attack, decay, sustain, release));
      assert v == State().Configured(voices[i], m);
      voices := voices[i := v.NotedOn(m, note, velocity)];
    }

    /** synth_note_off */
    method NoteOff(note: int)
      requires Valid()
      modifies this`voices
      ensures Valid()
      ensures State() == old(State()).NotedOff(note)
    {
      NoteOffEffect(State(), note);
      var r := FindVoiceByNote(note);
      if r.Some? {
        voices := voices[r.value := voices[r.value].NotedOff()];
      }
    }

    /** synth_process */
    method Process(m: Libm) returns (out: real)
      requires Valid() && m.Sound()
      modifies this`voices
      ensures Valid()
      ensures State() == old(State()).Processed(m).next
      ensures out == old(State()).Processed(m).out
    {
      var mix, activeCount := RunVoices(m);
      out := Normalised(mix, activeCount);
    }

    /** The voice loop of synth_process: each active voice is stepped once
        and its sample added to the sum; the active ones are counted. */
    method RunVoices(m: Libm) returns (mix: real, activeCount: nat)
      requires Valid() && m.Sound()
      modifies this`voices
      ensures Valid()
      ensures voices == SteppedFirst(old(voices), VoiceSteps(old(voices), m), |old(voices)|)
      ensures mix == ActiveSum(old(voices), VoiceSteps(old(voices), m), |old(voices)|)
      ensures activeCount == ActiveCount(old(voices), |old(voices)|)
      ensures activeCount == 0 ==> mix == 0.0
    {
      voices, mix, activeCount := StepVoices(voices, m);
    }

    /** The end of synth_process: the sum divided by the number of active
        voices when there are any, then scaled by the volume. */
    method Normalised(mix: real, activeCount: nat) returns (out: real)
      requires activeCount == 0 ==> mix == 0.0
      ensures out == Normalise(mix, activeCount, volume)
    {
      var x := mix;
      if activeCount > 0 {
        x := x / (activeCount as real);
      }
      out := x * volume;
    }

    /** The loop the fan-out setters share: the same write into every voice. */
    method EditAll(e: VoiceEdit)
      requires Valid()
      modifies this`voices
      ensures Valid()
      ensures voices == EditedAll(old(voices), e)
    {
      EditedAllReady(voices, e);
      var i := 0;
      while i < NumVoices
        invariant 0 <= i <= NumVoices && |voices| == NumVoices
        invariant forall j :: 0 <= j < i ==> voices[j] == Edited(old(voices)[j], e)
        invariant forall j :: i <= j < NumVoices ==> voices[j] == old(voices)[j]
      {
        voices := voices[i := Edited(voices[i], e)];
        i := i + 1;
      }
    }

    /** synth_set_wave_type */
    method SetWaveType(t: WaveShape)
      requires Valid()
      modifies this`waveType, this`voices
      ensures Valid()
      ensures State() == old(State()).WithWaveType(t)
    {
      waveType := t;
      EditAll(OscWave(t));
    }

    /** synth_set_wave_type2 */
    method SetWaveType2(t: WaveShape)
      requires Valid()
      modifies this`waveType2, this`voices
      ensures Valid()
      ensures State() == old(State()).WithWaveType2(t)
    {
      waveType2 := t;
      EditAll(Osc2Wave(t));
    }

    /** synth_set_osc_mix */
    method SetOscMix(mix: real)
      requires Valid()
      modifies this`oscMix, this`voices
      ensures Valid()
      ensures State() == old(State()).WithOscMix(mix)
    {
      var x := mix;
      if x < 0.0 { x := 0.0; }
      if x > 1.0 { x := 1.0; }
      oscMix := x;
      EditAll(OscMix(x));
    }

    /** synth_set_osc2_detune */
    method SetOsc2Detune(cents: real)
      requires Valid()
      modifies this`osc2Detune, this`voices
      ensures Valid()
      ensures State() == old(State()).WithOsc2Detune(cents)
    {
      var x := cents;
      if x < -100.0 { x := -100.0; }
      if x > 100.0 { x := 100.0; }
      osc2Detune := x;
      EditAll(Osc2Detune(x));
    }

    /** synth_set_filter */
    method SetFilter(m: Libm, cutoff: real, resonance: real, t: FilterType)
      requires Valid()
      modifies this`filterCutoff, this`filterResonance, this`filterType, this`voices
      ensures Valid()
      ensures State() == old(State()).WithFilter(m, cutoff, resonance, t)
    {
      filterCutoff := cutoff;
      filterResonance := resonance;
      filterType := t;
      EditAll(FilterSettings(m, cutoff, resonance, t));
    }

    /** synth_set_adsr */
    method SetAdsr(a: real, d: real, s: real, r: real)
      requires Valid()
      modifies this`attack, this`decay, this`sustain, this`release
      ensures Valid()
      ensures State() == old(State()).WithAdsr(a, d, s, r)
    {
      attack := a;
      decay := d;
      sustain := s;
      release := r;
    }

    /** synth_set_volume */
    method SetVolume(vol: real)
      requires Valid()
      modifies this`volume
      ensures Valid()
      ensures State() == old(State()).WithVolume(vol)
    {
      var x := vol;
      if x < 0.0 { x := 0.0; }
      if x > 1.0 { x := 1.0; }
      volume := x;
    }
  }
}
