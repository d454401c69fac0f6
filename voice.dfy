/** One synthesizer voice of src/voice.c: two oscillators, a sub-oscillator
    an octave down and up to six unison copies, two envelopes, two LFOs and
    a filter, plus the note, velocity and age the voice allocator reads.
    The C struct embeds its oscillators, envelopes, LFOs and filter by
    value, so a Voice holds their states as values and steps them with the
    functions the Oscillator, Envelope, Lfo and SvFilter classes are proved
    against. */
module Voices {
  import opened Numeric
  import opened Oscillators
  import opened Envelopes
  import opened Lfos
  import opened Filters

  /** MAX_UNISON: one main oscillator plus up to six unison copies. */
  const MaxUnison: int := 7

  /** Phase offset between consecutive unison copies. */
  const UnisonPhaseStep: real := 0.14159

  /** Detune in cents of extra unison oscillator i out of `extra`: a single
      extra copy sits `spread` above; otherwise the copies run evenly from
      -spread to +spread. */
  function UnisonDetune(i: int, extra: int, spread: real): real
    requires extra >= 1
  {
    if extra == 1 then spread
    else -spread + 2.0 * spread * (i as real) / ((extra - 1) as real)
  }

  /** Unison copy i as voice_note_on leaves it: detuned from the base
      frequency, the main oscillator's wave, the voice's pulse width
      (clamped by osc_set_pulse_width) and the phase i·0.14159. */
  function Tuned(u: OscState, m: Libm, i: int, extra: int, freq: real, spread: real,
                 wave: WaveShape, pw: real): OscState
    requires extra >= 1
  {
    u.(frequency := freq * m.pow(2.0, UnisonDetune(i, extra, spread) / 1200.0), wave := wave)
     .WithPulseWidth(pw)
     .(phase := i as real * UnisonPhaseStep)
  }

  /** The unison bank after voice_note_on: the first `extra` copies tuned,
      the rest untouched. */
  function UnisonLayout(us: seq<OscState>, m: Libm, extra: int, freq: real, spread: real,
                        wave: WaveShape, pw: real): (r: seq<OscState>)
    requires extra >= 1
    ensures |r| == |us|
  {
    seq(|us|, k requires 0 <= k < |us| =>
      if k < extra then Tuned(us[k], m, k, extra, freq, spread, wave, pw) else us[k])
  }

  /** What the unison loop of voice_process leaves: the oscillators it ran
      and the sum of their samples. */
  datatype UnisonResult = UnisonResult(oscs: seq<OscState>, sum: real)

  /** The first k unison copies, each given the modulated pulse width and
      generated once, in order; the copies from k on are untouched. */
  function UnisonPass(us: seq<OscState>, k: nat, pw: real, m: Libm): (r: UnisonResult)
    requires k <= |us|
    ensures |r.oscs| == |us|
    ensures forall j :: k <= j < |us| ==> r.oscs[j] == us[j]
    ensures forall j :: 0 <= j < k ==> r.oscs[j] == us[j].WithPulseWidth(pw).Generated()
    decreases k
  {
    if k == 0 then UnisonResult(us, 0.0)
    else
      var prev := UnisonPass(us, k - 1, pw, m);
      var u := prev.oscs[k - 1].WithPulseWidth(pw);
      UnisonResult(prev.oscs[k - 1 := u.Generated()], prev.sum + u.Output(m))
  }

  /** The voice's oscillator section: osc, osc2, the sub-oscillator and
      the unison copies (unison_oscs). */
  datatype OscSection = OscSection(osc: OscState, osc2: OscState, subOsc: OscState, unison: seq<OscState>)
  {
    /** The tuning half of voice_note_on at base frequency `freq`: osc at
        freq, osc2 detuned by osc2Detune cents, the sub-oscillator an octave
        down, and with unison on, the extra copies laid out across the spread. */
    function TunedTo(m: Libm, freq: real, s: VoiceSettings): OscSection
    {
      OscSection(osc.(frequency := freq),
                 osc2.(frequency := freq * m.pow(2.0, s.osc2Detune / 1200.0)),
                 subOsc.(frequency := freq * 0.5),
                 if s.unisonCount > 1
                 then UnisonLayout(unison, m, s.unisonCount - 1, freq, s.unisonSpread, osc.wave, s.pulseWidth)
                 else unison)
    }
  }

  /** The voice's scalar settings, which the synth and the preset loader
      write and voice_note_on and voice_process only read. */
  datatype VoiceSettings = VoiceSettings(unisonCount: int, unisonSpread: real, oscMix: real,
                                         osc2Detune: real, subOscMix: real, pulseWidth: real,
                                         filterEnvAmount: real, baseFilterCutoff: real)

  /** voice_init's settings: no unison, osc1 only, no detune, no sub,
      50% pulse width, no filter envelope, cutoff 0.5. */
  const InitialSettings: VoiceSettings := VoiceSettings(1, 0.0, 0.0, 0.0, 0.0, 0.5, 0.0, 0.5)

  /** The oscillator section after one voice_process, and the mixed signal. */
  datatype OscStep = OscStep(oscs: OscSection, sample: real)

  /** The oscillator half of voice_process at pulse width pw: osc and osc2
      take it, then osc, the unison copies, osc2 and the sub-oscillator are
      generated once each; osc and its copies are summed and divided by the
      square root of their count, then everything is mixed. */
  function Oscillated(o: OscSection, s: VoiceSettings, pw: real, m: Libm): (r: OscStep)
    requires s.unisonCount <= |o.unison| + 1 && m.Sound()
    ensures |r.oscs.unison| == |o.unison|
  {
    var o1 := o.osc.WithPulseWidth(pw);
    var o2 := o.osc2.WithPulseWidth(pw);
    var pass := UnisonPass(o.unison, if s.unisonCount > 1 then s.unisonCount - 1 else 0, pw, m);
    var osc1Out := if s.unisonCount > 1
                   then (o1.Output(m) + pass.sum) / m.sqrt(s.unisonCount as real)
                   else o1.Output(m);
    OscStep(OscSection(o1.Generated(), o2.Generated(), o.subOsc.Generated(), pass.oscs),
            Mixed(osc1Out, o2.Output(m), o.subOsc.Output(m), s.oscMix, s.subOscMix))
  }

  /** The mix of voice_process: osc1 and osc2 cross-faded by oscMix, then
      the sub-oscillator blended in at half its mix amount. */
  function Mixed(osc1Out: real, osc2Out: real, subOut: real, oscMix: real, subOscMix: real): real
  {
    var mainMix := osc1Out * (1.0 - oscMix) + osc2Out * oscMix;
    mainMix * (1.0 - subOscMix * 0.5) + subOut * subOscMix * 0.5
  }

  /** The filtered sample scaled by the envelope level and by velocity/127. */
  function Amplified(filtered: real, level: real, velocity: int): real
  {
    filtered * level * (velocity as real / 127.0)
  }

  /** The pulse width voice_process gives the oscillators: the voice's
      width plus the PWM LFO's next value, clamped to [0.05, 0.95]. */
  function ModulatedPulseWidth(m: Libm, pulseWidth: real, pwmLfo: LfoState): real
  {
    Clamp(pulseWidth + pwmLfo.Advanced().Output(m), MinPulseWidth, MaxPulseWidth)
  }

  /** The cutoff voice_process gives the filter: the base cutoff plus the
      filter envelope's next level times its amount plus the filter LFO's
      next value, clamped to [0, 1]. */
  function ModulatedCutoff(m: Libm, base: real, filterEnv: EnvState, amount: real, filterLfo: LfoState): real
    requires filterEnv.TimesValid()
  {
    Clamp(base + filterEnv.Processed().level * amount + filterLfo.Advanced().Output(m), 0.0, 1.0)
  }

  /** The value held by a Voice's fields. */
  datatype VoiceState = VoiceState(oscs: OscSection, settings: VoiceSettings,
                                   pwmLfo: LfoState, env: EnvState, filterEnv: EnvState,
                                   filterLfo: LfoState, filter: FilterState,
                                   note: int, velocity: int, age: int)
  {
    /** The unison bank has MAX_UNISON-1 slots, the unison count names at
        most that many extra copies, both envelopes have usable times, and
        the age is an unsigned 32-bit value. */
    ghost predicate Ready()
    {
      |oscs.unison| == MaxUnison - 1 && 1 <= settings.unisonCount <= MaxUnison &&
      env.TimesValid() && filterEnv.TimesValid() && 0 <= age < U32Modulus
    }

    /** voice_is_active: a held note, or an amplitude envelope still running. */
    predicate Active()
    {
      note >= 0 || env.stage != Idle
    }

    /** voice_note_on */
    function NotedOn(m: Libm, n: int, vel: int): (r: VoiceState)
      requires Ready()
      ensures r.Ready()
    {
      VoiceState(oscs.TunedTo(m, MidiToFreq(m, n), settings), settings,
                 pwmLfo.(phase := 0.0), env.GatedOn(), filterEnv.GatedOn(),
                 filterLfo.(phase := 0.0), filter, n, vel, 0)
    }

    /** voice_note_off: both envelopes released, the note cleared. */
    function NotedOff(): VoiceState
      requires Ready()
    {
      this.(env := env.GatedOff(), filterEnv := filterEnv.GatedOff(), note := -1)
    }

    /** voice_process: the new state of the voice and the sample it returns.
        An inactive voice returns 0 and is left alone. Otherwise the PWM LFO
        advances and the oscillators run at the modulated pulse width; the
        filter envelope and filter LFO advance and the filter, at the
        modulated cutoff, filters the mix; the amplitude envelope advances
        and scales the filtered sample by its level and velocity/127; the
        note is cleared once that envelope is Idle; the age goes up by one
        modulo 2^32. */
    function Stepped(m: Libm): (r: VoiceStep)
      requires Ready() && m.Sound()
      ensures r.next.Ready()
    {
      if !Active() then VoiceStep(this, 0.0) else ActiveStep(m)
    }

    /** The sounding branch of voice_process: oscillators, filter, then
        amplitude envelope. */
    function ActiveStep(m: Libm): (r: VoiceStep)
      requires Ready() && m.Sound()
      ensures r.next.Ready()
    {
      var os := OscillatorStage(m);
      var fs := os.next.FilterStage(m, os.out);
      fs.next.AmpStage(fs.out)
    }

    /** First stage of voice_process: the PWM LFO advances and the
        oscillators run at the modulated pulse width; out is their mix. */
    function OscillatorStage(m: Libm): (r: VoiceStep)
      requires Ready() && m.Sound()
      ensures r.next.Ready()
    {
      var os := Oscillated(oscs, settings, ModulatedPulseWidth(m, settings.pulseWidth, pwmLfo), m);
      VoiceStep(this.(oscs := os.oscs, pwmLfo := pwmLfo.Advanced()), os.sample)
    }

    /** Second stage: the filter envelope and filter LFO advance, and the
        filter at the modulated cutoff filters the mix; out is the selected
        filter output. */
    function FilterStage(m: Libm, sample: real): (r: VoiceStep)
      requires Ready()
      ensures r.next.Ready()
    {
      var cutoff := ModulatedCutoff(m, settings.baseFilterCutoff, filterEnv, settings.filterEnvAmount, filterLfo);
      var filter' := filter.WithCutoff(m, cutoff).Processed(sample);
      VoiceStep(this.(filterEnv := filterEnv.Processed(), filterLfo := filterLfo.Advanced(), filter := filter'),
                filter'.Selected())
    }

    /** Last stage: the amplitude envelope advances and scales the filtered
        sample; the note is cleared once it is Idle and the age goes up by
        one modulo 2^32. */
    function AmpStage(filtered: real): (r: VoiceStep)
      requires Ready()
      ensures r.next.Ready()
    {
      var env' := env.Processed();
      VoiceStep(this.(env := env', note := if env'.stage != Idle then note else -1, age := (age + 1) % U32Modulus),
                Amplified(filtered, env'.level, velocity))
    }
  }

  /** A voice's state after voice_process, with the sample it returned. */
  datatype VoiceStep = VoiceStep(next: VoiceState, out: real)

  /** voice_init */
  function InitialVoice(m: Libm): VoiceState
  {
    VoiceState(OscSection(InitialOsc, InitialOsc, InitialOsc, seq(MaxUnison - 1, _ => InitialOsc)),
               InitialSettings, InitialLfo, InitialEnv, InitialEnv, InitialLfo, InitialFilter(m),
               -1, 0, 0)
  }

  /** A fresh voice is ready and silent. */
  lemma InitialVoiceIdle(m: Libm)
    ensures InitialVoice(m).Ready() && !InitialVoice(m).Active()
  {
  }

  /** With one extra oscillator it sits +spread cents above. With more,
      the first sits at -spread, the last at +spread, neighbours are
      2·spread/(extra-1) apart, and copies i and extra-1-i mirror each other. */
  lemma UnisonDetuneLayout(extra: int, spread: real, i: int)
    requires extra >= 1 && 0 <= i < extra
    ensures extra == 1 ==> UnisonDetune(i, extra, spread) == spread
    ensures extra >= 2 ==> UnisonDetune(0, extra, spread) == -spread
    ensures extra >= 2 ==> UnisonDetune(extra - 1, extra, spread) == spread
    ensures extra >= 2 && i + 1 < extra ==>
      UnisonDetune(i + 1, extra, spread) - UnisonDetune(i, extra, spread) == 2.0 * spread / ((extra - 1) as real)
    ensures extra >= 2 ==> UnisonDetune(extra - 1 - i, extra, spread) == -UnisonDetune(i, extra, spread)
  {
    if extra >= 2 {
      var n := (extra - 1) as real;
      assert n > 0.0;
      assert 2.0 * spread * n / n == 2.0 * spread;
      assert 2.0 * spread * ((i + 1) as real) / n - 2.0 * spread * (i as real) / n == 2.0 * spread / n;
      assert 2.0 * spread * ((extra - 1 - i) as real) / n == 2.0 * spread - 2.0 * spread * (i as real) / n;
    }
  }

  /** After voice_note_on the voice is active with age 0 and the given note
      and velocity; both envelopes are in Attack, both LFO phases are 0, the
      sub-oscillator runs at half the main frequency, and unison copy i of
      the extra ones carries phase i·0.14159 and the main oscillator's wave. */
  lemma NoteOnLayout(v: VoiceState, m: Libm, n: int, vel: int, i: int)
    requires v.Ready() && 0 <= i < v.settings.unisonCount - 1
    ensures var w := v.NotedOn(m, n, vel);
      w.Ready() && w.Active() && w.note == n && w.velocity == vel && w.age == 0 &&
      w.env.stage == Attack && w.filterEnv.stage == Attack &&
      w.pwmLfo.phase == 0.0 && w.filterLfo.phase == 0.0 &&
      w.oscs.subOsc.frequency == w.oscs.osc.frequency * 0.5 &&
      w.oscs.unison[i].phase == i as real * UnisonPhaseStep && w.oscs.unison[i].wave == v.oscs.osc.wave &&
      MinPulseWidth <= w.oscs.unison[i].pulseWidth <= MaxPulseWidth
  {
  }

  /** voice_note_off clears the note, so the voice stays active exactly as
      long as its amplitude envelope has not returned to Idle. */
  lemma NoteOffKeepsRelease(v: VoiceState)
    requires v.Ready()
    ensures v.NotedOff().Ready() && v.NotedOff().note == -1
    ensures v.NotedOff().Active() <==> v.env.stage != Idle
  {
  }

  /** voice_process on an inactive voice returns 0 and changes nothing. On
      an active one the age goes up by one (mod 2^32); the note is cleared
      exactly when the amplitude envelope has just reached Idle; the
      oscillators' pulse width and the filter's cutoff are the clamped
      modulated values; and the voice stays ready. */
  lemma StepBookkeeping(v: VoiceState, m: Libm)
    requires v.Ready() && m.Sound()
    ensures var s := v.Stepped(m);
      s.next.Ready() &&
      (!v.Active() ==> s.next == v && s.out == 0.0) &&
      (v.Active() ==>
        s.next.age == (v.age + 1) % U32Modulus &&
        (s.next.note == -1 <==> (v.note == -1 || s.next.env.stage == Idle)) &&
        s.next.env == v.env.Processed() &&
        MinPulseWidth <= s.next.oscs.osc.pulseWidth <= MaxPulseWidth &&
        s.next.oscs.osc.pulseWidth == s.next.oscs.osc2.pulseWidth
          == ModulatedPulseWidth(m, v.settings.pulseWidth, v.pwmLfo) &&
        0.0 <= s.next.filter.cutoff <= 1.0 &&
        s.next.filter.cutoff
          == ModulatedCutoff(m, v.settings.baseFilterCutoff, v.filterEnv, v.settings.filterEnvAmount, v.filterLfo))
  {
    if v.Active() {
      var pw := ModulatedPulseWidth(m, v.settings.pulseWidth, v.pwmLfo);
      assert v.oscs.osc.WithPulseWidth(pw).pulseWidth == pw;
    }
  }

  /** The unison set-up loop of voice_note_on, over the first `extra`
      copies of the bank. */
  method TuneUnison(us: seq<OscState>, m: Libm, extra: int, freq: real, spread: real,
                    wave: WaveShape, pw: real) returns (r: seq<OscState>)
    requires 1 <= extra <= |us|
    ensures r == UnisonLayout(us, m, extra, freq, spread, wave, pw)
  {
    r := us;
    var i := 0;
    while i < extra
      invariant 0 <= i <= extra
      invariant |r| == |us|
      invariant forall k :: 0 <= k < |r| ==>
        r[k] == if k < i then Tuned(us[k], m, k, extra, freq, spread, wave, pw) else us[k]
    {
      var detuneCents := UnisonDetune(i, extra, spread);
      var uniMult := m.pow(2.0, detuneCents / 1200.0);
      var u := r[i].(frequency := freq * uniMult);
      u := u.(wave := wave);
      u := u.WithPulseWidth(pw);
      u := u.(phase := i as real * UnisonPhaseStep);
      r := r[i := u];
      i := i + 1;
    }
  }

  /** The tuning code of voice_note_on, on the oscillator section's value. */
  method TuneOscillators(o: OscSection, m: Libm, freq: real, s: VoiceSettings) returns (r: OscSection)
    requires s.unisonCount <= |o.unison| + 1
    ensures r == o.TunedTo(m, freq, s)
  {
    r := o.(osc := o.osc.(frequency := freq));
    var detuneMult := m.pow(2.0, s.osc2Detune / 1200.0);
    r := r.(osc2 := r.osc2.(frequency := freq * detuneMult));
    r := r.(subOsc := r.subOsc.(frequency := freq * 0.5));
    if s.unisonCount > 1 {
      var us := TuneUnison(r.unison, m, s.unisonCount - 1, freq, s.unisonSpread, r.osc.wave, s.pulseWidth);
      r := r.(unison := us);
    }
  }

  /** The unison loop of voice_process: each of the first `extra` copies
      gets the modulated pulse width and is generated once, and their
      samples are summed. */
  method RunUnison(us: seq<OscState>, extra: nat, pw: real, m: Libm) returns (r: seq<OscState>, sum: real)
    requires extra <= |us|
    ensures UnisonPass(us, extra, pw, m) == UnisonResult(r, sum)
  {
    r, sum := us, 0.0;
    var i := 0;
    while i < extra
      invariant 0 <= i <= extra
      invariant UnisonPass(us, i, pw, m) == UnisonResult(r, sum)
    {
      var u := r[i].WithPulseWidth(pw);
      sum := sum + u.Output(m);
      r := r[i := u.Generated()];
      i := i + 1;
    }
  }

  /** The oscillator code of voice_process, on the oscillator section's value. */
  method RunOscillators(o: OscSection, s: VoiceSettings, pw: real, m: Libm) returns (r: OscStep)
    requires s.unisonCount <= |o.unison| + 1 && m.Sound()
    ensures r == Oscillated(o, s, pw, m)
  {
    var osc := o.osc.WithPulseWidth(pw);
    var osc2 := o.osc2.WithPulseWidth(pw);
    var unison := o.unison;
    var osc1Out := osc.Output(m);
    osc := osc.Generated();
    if s.unisonCount > 1 {
      var uniSum;
      unison, uniSum := RunUnison(o.unison, s.unisonCount - 1, pw, m);
      osc1Out := osc1Out + uniSum;
      osc1Out := osc1Out / m.sqrt(s.unisonCount as real);
    }
    var osc2Out := osc2.Output(m);
    osc2 := osc2.Generated();
    var subOut := o.subOsc.Output(m);
    r := OscStep(OscSection(osc, osc2, o.subOsc.Generated(), unison),
                 Mixed(osc1Out, osc2Out, subOut, s.oscMix, s.subOscMix));
  }

  /** The Voice struct, updated in place by the voice_* functions. Its
      oscillators and its scalar settings are each held as one value. */
  class Voice {
    var oscs: OscSection
    var settings: VoiceSettings
    var pwmLfo: LfoState
    var env: EnvState
    var filterEnv: EnvState
    var filterLfo: LfoState
    var filter: FilterState
    var note: int
    var velocity: int
    var age: int

    ghost function State(): VoiceState
      reads this
    {
      VoiceState(oscs, settings, pwmLfo, env, filterEnv, filterLfo, filter, note, velocity, age)
    }

    ghost predicate Valid()
      reads this
    {
      State().Ready()
    }

    /** voice_init */
    constructor (m: Libm)
      ensures Valid() && State() == InitialVoice(m)
    {
      var us: seq<OscState> := [];
      var i := 0;
      while i < MaxUnison - 1
        invariant 0 <= i <= MaxUnison - 1
        invariant us == seq(i, _ => InitialOsc)
      {
        us := us + [InitialOsc];
        i := i + 1;
      }
      oscs := OscSection(InitialOsc, InitialOsc, InitialOsc, us);
      settings := InitialSettings;
      pwmLfo, env, filterEnv := InitialLfo, InitialEnv, InitialEnv;
      filterLfo, filter := InitialLfo, InitialFilter(m);
      note, velocity, age := -1, 0, 0;
    }

    /** voice_is_active */
    predicate IsActive()
      reads this
    {
      note >= 0 || env.stage != Idle
    }

    /** voice_note_on: sets note, velocity and age 0, tunes the oscillators
        and the unison bank, gates both envelopes and key-syncs both LFOs. */
    method NoteOn(m: Libm, n: int, vel: int)
      requires Valid()
      modifies this
      ensures Valid()
      ensures State() == old(State()).NotedOn(m, n, vel)
    {
      var freq := MidiToFreq(m, n);
      var tuned := TuneOscillators(oscs, m, freq, settings);
      note, velocity, age := n, vel, 0;
      oscs, env, filterEnv := tuned, env.GatedOn(), filterEnv.GatedOn();
      filterLfo, pwmLfo := filterLfo.(phase := 0.0), pwmLfo.(phase := 0.0);
    }

    /** voice_note_off */
    method NoteOff()
      requires Valid()
      modifies this
      ensures Valid()
      ensures State() == old(State()).NotedOff()
    {
      env := env.GatedOff();
      filterEnv := filterEnv.GatedOff();
      note := -1;
    }

    /** The oscillator stage of voice_process, on the object. */
    method RunOscillatorStage(m: Libm) returns (sample: real)
      requires Valid() && m.Sound()
      modifies this`pwmLfo, this`oscs
      ensures Valid()
      ensures VoiceStep(State(), sample) == old(State()).OscillatorStage(m)
    {
      var modPw := ModulatedPulseWidth(m, settings.pulseWidth, pwmLfo);
      pwmLfo := pwmLfo.Advanced();
      var os := RunOscillators(oscs, settings, modPw, m);
      oscs := os.oscs;
      sample := os.sample;
    }

    /** The filter stage of voice_process, on the object. */
    method RunFilterStage(m: Libm, sample: real) returns (filtered: real)
      requires Valid()
      modifies this`filterEnv, this`filterLfo, this`filter
      ensures Valid()
      ensures VoiceStep(State(), filtered) == old(State()).FilterStage(m, sample)
    {
      var modCutoff := ModulatedCutoff(m, settings.baseFilterCutoff, filterEnv, settings.filterEnvAmount, filterLfo);
      filterEnv := filterEnv.Processed();
      filterLfo := filterLfo.Advanced();
      filter := filter.WithCutoff(m, modCutoff).Processed(sample);
      filtered := filter.Selected();
    }

    /** The amplitude stage of voice_process, on the object. */
    method RunAmpStage(filtered: real) returns (out: real)
      requires Valid()
      modifies this`env, this`note, this`age
      ensures Valid()
      ensures VoiceStep(State(), out) == old(State()).AmpStage(filtered)
    {
      env := env.Processed();
      out := Amplified(filtered, env.level, velocity);
      if env.stage == Idle {
        note := -1;
      }
      age := (age + 1) % U32Modulus;
    }

    /** voice_process: one sample of the voice. */
    method Process(m: Libm) returns (r: real)
      requires Valid() && m.Sound()
      modifies this
      ensures Valid()
      ensures State() == old(State()).Stepped(m).next
      ensures r == old(State()).Stepped(m).out
    {
      if !IsActive() {
        return 0.0;
      }
      var sample := RunOscillatorStage(m);
      var filtered := RunFilterStage(m, sample);
      r := RunAmpStage(filtered);
    }
  }
}
