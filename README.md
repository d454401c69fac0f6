# Synth engine core in Dafny

This project models the sound engine of a small polyphonic synthesizer and
proves properties of that model. The engine is written in C and runs on an
embedded device. It turns note and control events into audio samples at
44100 Hz. Each modelled C file has its own Dafny module:

| module | file | what it holds |
|---|---|---|
| `Numeric` | shared | the sample rate, the setters' clamp, C's float-to-int truncation, 32-bit wrap-around, xorshift32 and the `Libm` record that stands for `sinf`, `powf`, `tanhf` and `sqrtf` |
| `Oscillators` | src/oscillator.c | sine, square, saw, triangle and noise generation, phase advance, MIDI-to-frequency |
| `Filters` | src/filter.c | the Chamberlin state-variable filter and its cached `fc`/`q` coefficients |
| `Lfos` | src/lfo.c | the low-frequency oscillator |
| `Envelopes` | src/envelope.c | the five-stage ADSR machine |
| `Voices` | src/voice.c | one voice: three oscillators, a unison bank, a filter, two envelopes and two LFOs |
| `Synths` | src/synth.c | the pool of four voices, voice stealing, the mix-down and the global setters |
| `Arpeggiators` | src/arp.c | the held-note buffer, its bubble sort, the five patterns and the step clock |
| `EffectsChain` | src/effects.c | the delay line, the Schroeder reverb (four combs, two all-passes), the tanh distortion and the chain |
| `Wavetables` | src/wavetable.c | the four 64 × 256 tables, their generation and normalisation, and bilinear lookup |
| `Presets` | src/preset.c | the preset file name, the JSON string writer, and the hand-written loader with its dispatch to setters, and what the recorded calls do to the synth |
| `Wrappers` | shared | `Option` |

Every C struct that the engine updates in place is a Dafny `class` with the
struct's fields, including `Oscillator`, `SvFilter`, `Lfo`, `Envelope`,
`Voice`, `Synth`, `Arpeggiator`, `Delay`, `Reverb`, `Distortion`, `Effects`
and `WavetableBank`. Each class has a ghost `State()` that takes a snapshot
of its fields as a datatype value. Each method ensures that the new state
is a pure step function of the old one. Examples are
`State() == old(State()).NotedOn(...)` and
`State() == old(State()).WithResonance(r)`. Loops in the source are `while`
loops with invariants here. Examples are the unison set-up, the voice scan,
the bubble sort, the note-buffer shift, the wavetable fills and the preset
reader. The lemmas about the step functions carry the promises: ranges
kept, voice-stealing policy, permutation and order after sorting, the
ring-buffer echo, the envelope ramps and round trips of the preset format.
A struct that C embeds by value inside another is held as a value. For
example, `Synth` holds `seq<VoiceState>` and `Reverb` holds `seq<Ring>`.

Floating-point numbers are modelled as `real`. The C maths functions are
the fields of a `Libm` value that every operation needing them receives.
`Libm.Sound()` assumes only what the proofs need from them:
- `sin` lies in [-1, 1];
- `pow(x, 0) = 1`;
- `sqrt` and `tanh` of a positive number are positive.

The `(int)` casts are `Numeric.Trunc`. The unsigned arithmetic of the noise
and random generators is taken modulo 2^32.

Some behaviours of the code are easy to mistake for something else, so
they are stated here as the code has them:
- The arpeggiator's step advances before the buffer is read. So from
  `arp_init` the first note played is the second held one
  (`Arpeggiators.FirstNoteIsSecondHeld`).
- `env_gate_off` computes the release rate as level/(release·44100). So a
  release always lasts release·44100 samples, whatever level it starts
  from (`Envelopes.ReleaseLastsReleaseTime`). It does not scale with the
  level.
- `osc_generate` has no wavetable case. A voice never reads a wavetable, so
  the tables are modelled on their own.
- `synth_set_filter` and `synth_note_on` write the voice filter's cutoff,
  but `voice_process` overwrites it on every sample. The new value is
  `base_filter_cutoff` (0.5, never changed) plus the modulation
  (`Voices.StepBookkeeping`).
- `preset_load` stores the arpeggiator division, the delay time and the
  reverb size as read, without the setters' clamps
  (`Presets.UncheckedStores`).
- A saved preset's master volume is not read back (see Findings).

## Model

| member | source | states |
|---|---|---|
| Numeric.Clamp | src/oscillator.c:25-29 | the clamp every setter applies: the result lies in [lo, hi], is lo below the range, hi above it and the input inside it |
| Numeric.Trunc | src/effects.c:41 | C's float-to-int cast truncates toward zero: for x >= 0 the result is the floor, for x < 0 the ceiling |
| Numeric.XorshiftKeepsNonzero | src/oscillator.c:32-35 | one xorshift32 step (shifts 13, 17, 5) never turns a non-zero seed into 0, so the noise generator cannot get stuck |
| Oscillators.NoiseValue | src/oscillator.c:36 | the seed is mapped onto [-1, 1], seed 0 to -1 and seed 2^32-1 to +1 |
| Oscillators.MidiToFreq | src/oscillator.c:81-83 | note 69 is 440 Hz (given that pow(x, 0) = 1) |
| Oscillators.TriangleBounded | src/oscillator.c:56-64 | the triangle wave lies in [-1, 1] for a phase in [0, 1) |
| Oscillators.TriangleSlopeBounded | src/oscillator.c:56-64 | the three pieces join without a jump: between two phases in [0, 1) the triangle moves by at most 4 times their distance, across the break points at 1/4 and 3/4 included |
| Oscillators.OutputBounded | src/oscillator.c:43-69 | square, saw, triangle and noise (and an unknown type, which gives 0) lie in [-1, 1] for a phase in [0, 1) |
| Oscillators.GeneratedKeepsPhase | src/oscillator.c:71-76 | with 0 <= frequency < 44100 the phase stays in [0, 1) after the single wrap |
| Oscillators.Oscillator.constructor | src/oscillator.c:9-15 | osc_init: phase 0, 440 Hz, sine, pulse width 0.5, seed 12345 |
| Oscillators.Oscillator.SetFrequency | src/oscillator.c:17-19 | only the frequency changes, to the value given, unclamped |
| Oscillators.Oscillator.SetType | src/oscillator.c:21-23 | only the wave type changes |
| Oscillators.Oscillator.SetPulseWidth | src/oscillator.c:25-29 | the pulse width becomes the width clamped to [0.05, 0.95]; nothing else changes |
| Oscillators.Oscillator.Generate | src/oscillator.c:39-79 | the sample is the waveform at the phase BEFORE the advance; a square gives +1 exactly when the phase is below the pulse width; non-sine samples lie in [-1, 1]; the new state is the phase advanced by frequency/44100 and wrapped once, with the seed stepped only for noise, and the phase stays in [0, 1) when the frequency is below 44100 |
| Filters.Fc | src/filter.c:10-14 | the cached coefficient never exceeds 0.9 |
| Filters.Q | src/filter.c:17-20 | q is at least 0.05, equals 1 - resonance unless floored, and is at most 1 for a non-negative resonance |
| Filters.InitialFilterValid | src/filter.c:22-32 | the initial filter is in range, its fc is the coefficient of cutoff 0.5, and q = 1 |
| Filters.SettersKeepValid | src/filter.c:34-52 | each setter keeps cutoff in [0, 1], resonance in [0, 0.99], q = Q(resonance) and fc = Fc(cutoff), and q stays in [0.05, 1] |
| Filters.RestsOnConstantInput | src/filter.c:57-60 | with no band energy and low at the input, a step leaves low at the input, high and band at 0 and passes the input to the notch |
| Filters.ProcessedRelations | src/filter.c:57-60 | every step keeps notch = high + low, moves low by fc times the old band and band by fc times the new high, computes high from the new low, and leaves the parameters and coefficients alone |
| Filters.SvFilter.constructor | src/filter.c:22-32 | filter_init: zero accumulators, cutoff 0.5, resonance 0, lowpass, coefficients cached |
| Filters.SvFilter.SetCutoff | src/filter.c:34-40 | the cutoff becomes the value clamped to [0, 1] and fc is recomputed from it; a valid filter stays valid |
| Filters.SvFilter.SetResonance | src/filter.c:42-48 | the resonance becomes the value clamped to [0, 0.99] and q is recomputed; a valid filter stays valid |
| Filters.SvFilter.SetType | src/filter.c:50-52 | only the output type changes |
| Filters.SvFilter.Process | src/filter.c:54-73 | one Chamberlin step in the source's order; the output is low, high or band by type, and low for an unknown type |
| Lfos.WaveBounded | src/lfo.c:36-55 | triangle, saw and square (and an unknown type, which gives 0) lie in [-1, 1] for a phase in [0, 1) |
| Lfos.OutputBounded | src/lfo.c:57-58 | away from the sine, the output never exceeds the depth in magnitude |
| Lfos.Lfo.constructor | src/lfo.c:6-11 | lfo_init: phase 0, 1 Hz, depth 0, sine |
| Lfos.Lfo.SetRate | src/lfo.c:13-17 | the rate becomes the value clamped to [0.1, 20] Hz; nothing else changes |
| Lfos.Lfo.SetDepth | src/lfo.c:19-23 | the depth becomes the value clamped to [0, 1]; nothing else changes |
| Lfos.Lfo.SetShape | src/lfo.c:25-27 | only the waveform changes |
| Lfos.Lfo.ResetPhase | src/voice.c:80-81 | key sync on note-on: only the phase changes, to 0 |
| Lfos.Lfo.Process | src/lfo.c:29-59 | the phase advances by rate/44100 and wraps once, staying in [0, 1); the output is the waveform at the NEW phase times the depth, is 0 at depth 0, and lies within the depth for non-sine shapes |
| Oscillators.Oscillator.Waveform | src/oscillator.c:40-69 | the sample is the waveform at the current phase; only the noise seed changes, and only for noise |
| Oscillators.Oscillator.AdvancePhase | src/oscillator.c:71-76 | the phase becomes the advanced and once-wrapped phase that Generated describes |
| Filters.SvFilter.UpdateFc | src/filter.c:10-14 | only fc changes, to the coefficient Fc of the current cutoff |
| Filters.SvFilter.UpdateQ | src/filter.c:17-20 | only q changes, to Q of the current resonance |
| Envelopes.EnvState.Processed | src/envelope.c:33-70 | one env_process step never touches attack, decay, sustain or release |
| Envelopes.Run | src/envelope.c:33-70 | n steps of env_process keep the three times at or above 0.001 |
| Envelopes.ProcessKeepsBounded | src/envelope.c:21-70 | with sustain in [0, 1], env_process, env_gate_on and env_gate_off keep the level in [0, 1] and the rate non-negative |
| Envelopes.AttackRamp | src/envelope.c:39-46 | from level 0 with a per-sample rate of 1/N the envelope stays in Attack with level n/N for n < N samples, and the N-th sample clamps the level to exactly 1 and enters Decay |
| Envelopes.AttackOfTenthSecond | src/envelope.c:21-24 | an attack of 0.1 s from gate-on at level 0 is still in Attack after 4409 samples and reaches Decay at level 1 after exactly 4410 |
| Envelopes.ReleaseRamp | src/envelope.c:60-66 | from level L > 0 with rate L/N the level after n < N samples is L - n·L/N > 0, still in Release, and the N-th sample reaches level 0 and Idle |
| Envelopes.ReleaseArithmetic | src/envelope.c:61-63 | the arithmetic of one release step: taking L/N off L - (n-1)·L/N gives L - n·L/N, positive before the N-th step and exactly 0 at it |
| Envelopes.ReleaseLastsReleaseTime | src/envelope.c:26-31 | gate-off sets the rate from the current level, so a release lasts release·44100 samples whatever the level it starts from |
| Envelopes.Envelope.constructor | src/envelope.c:4-12 | env_init: 0.01 / 0.1 / 0.7 / 0.3, Idle at level 0 |
| Envelopes.Envelope.SetAdsr | src/envelope.c:14-19 | attack, decay and release are floored at 0.001; sustain is stored as given, unclamped; the stage, level and rate are kept |
| Envelopes.Envelope.GateOn | src/envelope.c:21-24 | the stage becomes Attack with rate 1/(attack·44100) and the level is kept (no retrigger to 0) |
| Envelopes.Envelope.GateOff | src/envelope.c:26-31 | no change when Idle; otherwise Release with rate level/(release·44100) |
| Envelopes.Envelope.Process | src/envelope.c:33-70 | one step of the five-stage machine; the output is the new level, and a bounded envelope stays bounded |
| Voices.UnisonLayout | src/voice.c:53-73 | the unison bank keeps its size; the first `extra` copies are retuned and the rest are left as they were |
| Voices.UnisonPass | src/voice.c:109-114 | copies before k are given the modulated pulse width and generated once; copies from k on are left as they were; the bank keeps its size |
| Voices.Oscillated | src/voice.c:97-124 | the oscillator section of voice_process keeps the size of the unison bank |
| Voices.VoiceState.NotedOn | src/voice.c:35-82 | voice_note_on keeps the voice ready: the bank has MAX_UNISON-1 slots, the unison count is in range, both envelopes have usable times and the age fits 32 bits |
| Voices.VoiceState.Stepped | src/voice.c:92-156 | voice_process keeps the voice ready |
| Voices.VoiceState.ActiveStep | src/voice.c:97-155 | the sounding branch of voice_process keeps the voice ready |
| Voices.VoiceState.OscillatorStage | src/voice.c:97-124 | the PWM and oscillator stage keeps the voice ready |
| Voices.VoiceState.FilterStage | src/voice.c:126-138 | the filter-modulation stage keeps the voice ready |
| Voices.VoiceState.AmpStage | src/voice.c:140-155 | the envelope, note-clearing and age stage keeps the voice ready |
| Voices.InitialVoiceIdle | src/voice.c:3-30 | the voice that voice_init leaves is ready and not active |
| Voices.UnisonDetuneLayout | src/voice.c:57-65 | a single extra copy sits +spread cents above the base. With more copies, the first sits at -spread and the last at +spread, neighbours are 2·spread/(extra-1) apart, and copies i and extra-1-i mirror each other |
| Voices.NoteOnLayout | src/voice.c:35-82 | after voice_note_on the voice is ready and active, with the given note and velocity and age 0. Both envelopes are in Attack and both LFO phases are 0. The sub-oscillator runs at half the main frequency. Each extra unison copy i has phase i·0.14159, the main wave and a clamped pulse width |
| Voices.NoteOffKeepsRelease | src/voice.c:84-90 | voice_note_off clears the note, so the voice stays active exactly while its amplitude envelope is not Idle |
| Voices.StepBookkeeping | src/voice.c:92-156 | an inactive voice yields 0 and is unchanged. An active voice ages by one modulo 2^32. Its note is cleared exactly when the envelope reaches Idle, and its envelope takes one env_process step. Both main oscillators get the PWM value clamped to [0.05, 0.95]. The filter gets the modulated cutoff clamped to [0, 1] |
| Voices.TuneUnison | src/voice.c:53-73 | the unison set-up loop yields exactly the layout UnisonLayout describes |
| Voices.TuneOscillators | src/voice.c:40-73 | the tuning code of voice_note_on yields the tuned oscillator section: osc at the note frequency, osc2 detuned, the sub-oscillator an octave down and the unison layout |
| Voices.RunUnison | src/voice.c:109-114 | the unison loop of voice_process yields the bank and the sum that UnisonPass describes |
| Voices.RunOscillators | src/voice.c:102-124 | the oscillator code of voice_process yields the section and the mixed sample that Oscillated describes |
| Voices.Voice.constructor | src/voice.c:3-30 | voice_init yields the initial voice state, which is ready |
| Voices.Voice.NoteOn | src/voice.c:35-82 | the voice's new state is NotedOn of its old state, and it stays ready |
| Voices.Voice.NoteOff | src/voice.c:84-90 | the voice's new state is NotedOff of its old state, and it stays ready |
| Voices.Voice.RunOscillatorStage | src/voice.c:97-124 | it changes only the PWM LFO and the oscillators, as OscillatorStage describes |
| Voices.Voice.RunFilterStage | src/voice.c:126-138 | it changes only the filter envelope, the filter LFO and the filter, as FilterStage describes |
| Voices.Voice.RunAmpStage | src/voice.c:140-155 | it changes only the envelope, the note and the age, as AmpStage describes |
| Voices.Voice.Process | src/voice.c:92-156 | the voice's new state and the returned sample are those of Stepped, and the voice stays ready |
| Synths.FirstInactive | src/synth.c:27-32 | the index of the first inactive voice: every voice before it is active, and |vs| means all are active |
| Synths.OldestIn | src/synth.c:35-41 | the stealing scan ends on a voice of maximal age among the first n, with every earlier voice strictly younger, so ties go to the lowest index |
| Synths.FirstHolding | src/synth.c:45-52 | the lowest-index active voice holding the note; None exactly when no active voice holds it |
| Synths.EditedAll | src/synth.c:101-147 | the per-voice fan-out of the setters keeps the number of voices |
| Synths.EditKeepsReady | src/synth.c:101-147 | a setter's per-voice write keeps the voice ready and leaves its note, age and amplitude envelope alone |
| Synths.EditedAllReady | src/synth.c:104-106 | applying the same write to every voice keeps them all ready |
| Synths.SteppedFirst | src/synth.c:86-91 | the voice array after the first k voices of the loop keeps its size |
| Synths.ActiveCount | src/synth.c:84-90 | the number of active voices among the first k is at most k |
| Synths.VoiceSteps | src/synth.c:88 | voice_process on every voice yields ready voices, one result per voice |
| Synths.InitialSynthReady | src/synth.c:4-23 | synth_init leaves four ready voices, none of them active |
| Synths.FindVoicePolicy | src/synth.c:26-42 | find_voice picks the lowest-index inactive voice when there is one; otherwise a voice of maximal age with no earlier voice of that age |
| Synths.NoteOnEffect | src/synth.c:54-73 | velocity 0 acts as synth_note_off. Otherwise the chosen voice gets the patch: wave types, mix and detune; the filter cutoff and resonance, clamped; the filter type; and the ADSR with attack, decay and release floored at 0.001 and the sustain as set. It also gets the note, the velocity, age 0 and both envelopes in Attack. Every other voice and every global is unchanged, and the synth stays ready |
| Synths.NoteOffEffect | src/synth.c:75-80 | the first active voice holding the note is released and its note cleared; no other voice changes; with no such voice the synth is unchanged |
| Synths.ActiveCountZero | src/synth.c:84-96 | the active count is 0 exactly when no voice is active, and then the sum is 0 |
| Synths.SumBounded | src/synth.c:86-91 | when every active voice yields a sample in [-b, b], the loop's sum lies in [-b·count, b·count] |
| Synths.AverageBounded | src/synth.c:93-98 | dividing such a sum by the count and scaling by a volume in [0, 1] stays within [-b, b] |
| Synths.ScaleKeepsBound | src/synth.c:98 | scaling by a volume in [0, 1] keeps a value within [-b, b] |
| Synths.ProcessSteps | src/synth.c:82-99 | synth_process steps exactly the active voices and leaves inactive ones and every global alone. The synth stays ready. With no active voice the output is 0 and nothing changes |
| Synths.ProcessBounded | src/synth.c:82-99 | with every active voice's sample in [-b, b] and the volume in [0, 1], the output lies in [-b, b]: normalising by the voice count prevents clipping |
| Synths.SettersEffect | src/synth.c:101-160 | the mix is clamped to [0, 1], the detune to [-100, 100] and the volume to [0, 1], and each is kept when already in range. Wave types, mix, detune and the filter settings, clamped by each filter, reach every voice. The ADSR and volume setters leave the voices unchanged. All keep the synth ready |
| Synths.AddOneVoice | src/synth.c:87-90 | one more voice in the loop adds its sample and 1 when it is active, and nothing when it is not |
| Synths.StepVoices | src/synth.c:83-91 | the voice loop yields the stepped voices, the sum of the active samples and the active count; the voices stay ready, and a zero count means a zero sum |
| Synths.Synth.constructor | src/synth.c:4-23 | synth_init yields the initial state, which is ready |
| Synths.Synth.FindVoice | src/synth.c:26-42 | the two scans of find_voice return the voice FindVoicePolicy describes |
| Synths.Synth.FindVoiceByNote | src/synth.c:45-52 | the scan returns FirstHolding |
| Synths.Synth.NoteOn | src/synth.c:54-73 | the synth's new state is NotedOn of the old one, and it stays ready |
| Synths.Synth.NoteOff | src/synth.c:75-80 | the synth's new state is NotedOff of the old one, and it stays ready |
| Synths.Synth.Process | src/synth.c:82-99 | the new state and the returned sample are those of Processed, and the synth stays ready |
| Synths.Synth.RunVoices | src/synth.c:83-91 | the voice loop on the object, as StepVoices describes |
| Synths.Synth.Normalised | src/synth.c:93-98 | the sum divided by the active count, when there is one, times the volume |
| Synths.Synth.EditAll | src/synth.c:104-106 | the same write lands in every voice, and the voices stay ready |
| Synths.Synth.SetWaveType | src/synth.c:101-107 | the new state is WithWaveType of the old one |
| Synths.Synth.SetWaveType2 | src/synth.c:109-115 | the new state is WithWaveType2 of the old one |
| Synths.Synth.SetOscMix | src/synth.c:117-125 | the new state is WithOscMix of the old one |
| Synths.Synth.SetOsc2Detune | src/synth.c:127-135 | the new state is WithOsc2Detune of the old one |
| Synths.Synth.SetFilter | src/synth.c:137-147 | the new state is WithFilter of the old one |
| Synths.Synth.SetAdsr | src/synth.c:149-154 | the new state is WithAdsr of the old one: the globals only |
| Synths.Synth.SetVolume | src/synth.c:156-160 | the new state is WithVolume of the old one |
| Arpeggiators.PatternOf | src/arp.c:122-186 | a pattern code is unrecognised exactly when it lies outside 0..4; that is the case advance_step's default branch handles |
| Arpeggiators.IndexOf | src/arp.c:58-63 | the first buffer position holding the pitch; None exactly when no held note has it |
| Arpeggiators.SwapIfGreater | src/arp.c:44-51 | one inner step of sort_notes keeps the buffer length |
| Arpeggiators.InnerPass | src/arp.c:43-52 | the inner loop keeps the buffer length |
| Arpeggiators.Passes | src/arp.c:42-53 | the outer loop keeps the buffer length |
| Arpeggiators.BubbleSorted | src/arp.c:40-54 | sort_notes keeps the buffer length |
| Arpeggiators.SwapPermutes | src/arp.c:44-51 | a swap exchanges two note/velocity pairs and loses none |
| Arpeggiators.InnerPassPermutes | src/arp.c:43-52 | the inner loop only permutes the pairs |
| Arpeggiators.PassesPermute | src/arp.c:42-53 | the outer loop only permutes the pairs |
| Arpeggiators.BubbleSortedPermutes | src/arp.c:40-54 | after sort_notes the buffer holds the same note/velocity pairs, each note still with its own velocity |
| Arpeggiators.SwapKeepsDistinct | src/arp.c:44-51 | a swap keeps the pitches pairwise distinct |
| Arpeggiators.InnerPassKeepsDistinct | src/arp.c:43-52 | the inner loop keeps the pitches pairwise distinct |
| Arpeggiators.PassesKeepDistinct | src/arp.c:42-53 | the outer loop keeps the pitches pairwise distinct |
| Arpeggiators.BubbleSortedDistinct | src/arp.c:40-54 | sorting never duplicates a pitch |
| Arpeggiators.InnerPassRaisesMax | src/arp.c:43-52 | after the inner loop up to k, position k holds the highest pitch of 0..k and nothing past k has moved |
| Arpeggiators.InnerPassKeepsBound | src/arp.c:43-52 | a bound on the pitches in 0..k survives the inner loop |
| Arpeggiators.PassesSortSuffix | src/arp.c:42-53 | after n passes the last n pairs are ascending and none before them is higher |
| Arpeggiators.BubbleSortedAscending | src/arp.c:40-54 | after sort_notes the buffer is in ascending order of pitch |
| Arpeggiators.ClampStep | src/arp.c:228-230 | the clamped step lies inside the buffer, and a step already inside is kept |
| Arpeggiators.ArpRandomInRange | src/arp.c:110-115 | for a positive max, arp_random yields a value in [0, max) and advances the seed by one xorshift32 step |
| Arpeggiators.TotalStepsZero | src/arp.c:119-120 | total_steps is 0 exactly when there are no notes or no octaves |
| Arpeggiators.TotalStepsFit | src/arp.c:119 | with octaves bounded as Ready requires, note_count · octaves fits a C int for every count up to 16, and so does octaves itself |
| Arpeggiators.InitialArpSilent | src/arp.c:21-37 | arp_init gives a ready arpeggiator that emits nothing and does not change when processed |
| Arpeggiators.NoteOnEffect | src/arp.c:56-76 | arp_note_on on a held pitch changes only its velocity. A new pitch, when there is room, adds one pair: the pairs are the old ones plus the new one, in ascending order unless the pattern is as-played, where the new pair is appended. A full buffer ignores the note. The buffer stays distinct and the other fields are untouched |
| Arpeggiators.FirstMatch | src/arp.c:58-63 | the first position holding the pitch is the one the search finds |
| Arpeggiators.RemoveKeepsDistinct | src/arp.c:83-87 | closing the gap keeps the remaining pitches distinct |
| Arpeggiators.NoteOffKeepsReady | src/arp.c:78-97 | arp_note_off keeps the buffer ready and the settings unchanged; an absent pitch changes nothing |
| Arpeggiators.NoteOffEffect | src/arp.c:78-97 | removing a held pitch leaves no pair with that pitch. The pairs before it stay, those after it move down one, and the count drops by one. A step past the new end of a non-empty buffer resets step and octave to 0, and the rest of the playback is unchanged |
| Arpeggiators.ClearedSilent | src/arp.c:99-107 | arp_clear empties the buffer and stops the note, and a cleared arpeggiator then emits nothing and does not change |
| Arpeggiators.AdvanceKeepsRange | src/arp.c:118-187 | advance_step keeps the step inside the buffer and the octave in [0, octaves) for every pattern; Up, as-played and Down leave the direction and the seed alone |
| Arpeggiators.UpDownNeverRepeats | src/arp.c:146-177 | with two or more notes, Up-down never plays the same step and octave twice in a row, and the direction stays ±1 |
| Arpeggiators.UpDownThreeNotes | src/arp.c:146-177 | Up-down over three notes in one octave visits steps 1, 2, 1, 0, 1, 2 |
| Arpeggiators.ProcessIdle | src/arp.c:190-200 | a disabled or empty arpeggiator turns off a sounding note (event -1, velocity 0) and forgets it; otherwise nothing happens, and the phase does not move |
| Arpeggiators.GateOffPreempts | src/arp.c:209-219 | when the phase crosses the gate of a sounding note, the call returns note-off and stops: no wrap, no step and no new note, even when the phase also reached 1 |
| Arpeggiators.ProcessWraps | src/arp.c:221-242 | a phase of 1 or more without a gate crossing drops by exactly 1. The step advances and is clamped into the buffer, and the note at that step starts, raised by twelve semitones per octave, with that note's velocity |
| Arpeggiators.FirstNoteIsSecondHeld | src/arp.c:21-37 | from the playback state arp_init leaves, the first note Up plays is the second held note, because the step advances before the buffer is read |
| Arpeggiators.Arpeggiator.constructor | src/arp.c:21-37 | arp_init yields the initial state |
| Arpeggiators.Arpeggiator.SortNotes | src/arp.c:40-54 | the in-place bubble sort leaves exactly BubbleSorted of the held prefix and does not touch the rest of the array |
| Arpeggiators.Arpeggiator.Find | src/arp.c:58-63 | the search loop returns IndexOf of the held notes |
| Arpeggiators.Arpeggiator.NoteOn | src/arp.c:56-76 | the new state is NotedOn of the old one, and the arpeggiator stays valid |
| Arpeggiators.Arpeggiator.NoteOff | src/arp.c:78-97 | the new state is NotedOff of the old one, and the arpeggiator stays valid |
| Arpeggiators.Arpeggiator.RemoveAt | src/arp.c:83-87 | the shift loop removes position i from the held notes and decrements the count |
| Arpeggiators.Arpeggiator.Clear | src/arp.c:99-107 | the new state is Cleared of the old one |
| Arpeggiators.Arpeggiator.NextRandom | src/arp.c:110-115 | the new seed and the value are those of ArpRandom |
| Arpeggiators.Arpeggiator.AdvanceStep | src/arp.c:118-187 | the new state is Advanced of the old one |
| Arpeggiators.Arpeggiator.AdvanceUp | src/arp.c:123-133 | the cursor takes the Up step and nothing else changes |
| Arpeggiators.Arpeggiator.AdvanceUpDown | src/arp.c:146-177 | the cursor takes the Up-down step and nothing else changes |
| Arpeggiators.Arpeggiator.Process | src/arp.c:189-245 | the new state and the event are those of Processed |
| Arpeggiators.Arpeggiator.PlayNext | src/arp.c:225-241 | the new state and the event are those of NextNote |
| EffectsChain.Ahead | src/effects.c:55 | the cursor k steps on stays in the ring; fewer than n steps never return to the start and exactly n steps do |
| EffectsChain.StepIsAhead | src/effects.c:74 | one `(pos + 1) % size` step is one cell ahead |
| EffectsChain.AheadShift | src/effects.c:74 | k+1 steps from p are k steps from the cell after p |
| EffectsChain.Ring.Fed | src/effects.c:71-91 | a comb or all-pass call keeps the ring usable and its size and feedback unchanged |
| EffectsChain.RunRing | src/effects.c:71-91 | any run of calls keeps the ring usable, with the same size, feedback and buffer length |
| EffectsChain.TuningsFit | src/effects.c:6-8 | every comb and all-pass tuning fits its buffer, so none is cut |
| EffectsChain.Silence | src/effects.c:15 | the memset buffer: n cells, all 0 |
| EffectsChain.InitReady | src/effects.c:64-83 | comb_init and allpass_init give a usable ring for any positive size; a size that does not fit is cut to the buffer length minus one, and one that fits is kept |
| EffectsChain.FedEffect | src/effects.c:71-91 | one call writes input + buffered·feedback into the cell at the cursor only, and moves the cursor one cell on, wrapping at size |
| EffectsChain.RunRingEffect | src/effects.c:71-91 | after k ≤ size calls the cursor is k cells on, and every cell not visited holds what it held |
| EffectsChain.RingRecurrence | src/effects.c:71-91 | the feedback recurrence: the cell read size calls later holds input + buffered·feedback from that earlier call, whatever the inputs in between |
| EffectsChain.DelaySamples | src/effects.c:41-44 | the delay in samples is below the buffer length, and not negative for a non-negative time |
| EffectsChain.ReadPos | src/effects.c:46-49 | the read position is the write position minus the delay, modulo the buffer length |
| EffectsChain.DelaySamplesRange | src/effects.c:22-26 | within the delay_set_time range the delay is 441 to 44099 samples, so the read cell is never the write cell |
| EffectsChain.DelayState.Processed | src/effects.c:40-58 | delay_process keeps the delay line usable |
| EffectsChain.ProcessedWrites | src/effects.c:51-55 | delay_process stores input + delayed·feedback at the write cursor, advances the cursor and changes nothing else |
| EffectsChain.RunDelay | src/effects.c:40-58 | any run of delay_process calls keeps the line usable and the settings unchanged |
| EffectsChain.DelayRing | src/effects.c:40-58 | the delay buffer viewed as a ring of its own length is a usable ring |
| EffectsChain.Stored | src/effects.c:52 | one stored value per input |
| EffectsChain.RunDelayIsRing | src/effects.c:51-55 | the delay line writes exactly like a ring without feedback fed the stored values: same buffer and same cursor after any run |
| EffectsChain.DelayEcho | src/effects.c:40-58 | the echo: the value stored by one call is the one read back delay_samples calls later, whatever the inputs in between |
| EffectsChain.BlendBounded | src/effects.c:57 | with a mix in [0, 1], the dry/wet blend stays within any bound both inputs keep; mix 0 is dry and mix 1 is wet |
| EffectsChain.RoomFeedbackRange | src/effects.c:104-114 | the comb feedback runs from 0.7 to 0.98 over room sizes in [0, 1], and reverb_init's 0.84 matches its room size 0.5 |
| EffectsChain.ReverbState.Processed | src/effects.c:122-137 | reverb_process keeps every comb and all-pass usable |
| EffectsChain.Retuned | src/effects.c:111-113 | every comb gets the new feedback and nothing else about it changes |
| EffectsChain.ResizedTunesCombs | src/effects.c:104-114 | reverb_set_roomsize clamps the size to [0, 1] and gives every comb the matching feedback, in [0.7, 0.98]. Buffers, cursors, all-passes and mix are unchanged |
| EffectsChain.FedAll | src/effects.c:125-127 | the first k combs are fed the input once each, and the rest are unchanged |
| EffectsChain.ReverbMixEnds | src/effects.c:136 | reverb mix 0 passes the input through and mix 1 returns only the wet signal |
| EffectsChain.ReverbWetPath | src/effects.c:122-137 | the wet signal is the two all-passes applied in series to the mean of the four comb outputs |
| EffectsChain.DistortionShape | src/effects.c:148-171 | with the drive in [1, 10], the normaliser tanh(drive) is non-zero and an input of 1 comes out as exactly 1. The curve is odd when tanh is. Mix 0 leaves the signal untouched and mix 1 gives the shaped signal alone |
| EffectsChain.EffectsState.Processed | src/effects.c:183-192 | effects_process keeps the chain usable |
| EffectsChain.DryChainIsTransparent | src/effects.c:183-192 | with all three mixes at 0, the chain outputs its input |
| EffectsChain.InitialEffectsReady | src/effects.c:177-181 | effects_init gives a usable chain with settings in their setter ranges, the distortion dry, and the comb feedback matching the room size |
| EffectsChain.Delay.constructor | src/effects.c:14-20 | delay_init: a silent buffer, the cursor at 0, 0.3 s, feedback 0.4, mix 0.3 |
| EffectsChain.Delay.SetTime | src/effects.c:22-26 | only the time changes, to the value clamped to [0.01, 1]; the setter ranges are kept |
| EffectsChain.Delay.SetFeedback | src/effects.c:28-32 | only the feedback changes, to the value clamped to [0, 0.9] |
| EffectsChain.Delay.SetMix | src/effects.c:34-38 | only the mix changes, to the value clamped to [0, 1] |
| EffectsChain.Delay.Process | src/effects.c:40-58 | the new state and the output are those of Processed and Output |
| EffectsChain.Reverb.constructor | src/effects.c:93-102 | reverb_init: the tuned combs with feedback 0.84, all-passes with feedback 0.5, mix 0.2, room size 0.5 |
| EffectsChain.Reverb.SetRoomsize | src/effects.c:104-114 | the new state is Resized of the old one |
| EffectsChain.Reverb.SetMix | src/effects.c:116-120 | only the mix changes, to the value clamped to [0, 1] |
| EffectsChain.Reverb.Process | src/effects.c:122-137 | the new state and the output are those of Processed and Output |
| EffectsChain.Distortion.constructor | src/effects.c:143-146 | distortion_init: drive 1, mix 0 |
| EffectsChain.Distortion.SetDrive | src/effects.c:148-152 | only the drive changes, to the value clamped to [1, 10] |
| EffectsChain.Distortion.SetMix | src/effects.c:154-158 | only the mix changes, to the value clamped to [0, 1] |
| EffectsChain.Distortion.Process | src/effects.c:160-171 | the output is the tanh soft-clip, normalised by tanh(drive) and blended by mix |
| EffectsChain.Effects.constructor | src/effects.c:177-181 | effects_init yields the initial chain |
| EffectsChain.Effects.Process | src/effects.c:183-192 | distortion, then delay, then reverb: the new state and the output are those of Processed and Output |
| Wavetables.TableFor | src/wavetable.c:165-168 | wavetable_get returns the table of a valid type code and falls back to the basic table for any code past the last one |
| Wavetables.WrapPhaseIsFraction | src/wavetable.c:175-177 | the phase wrap is the fractional part phase - floor(phase): it lies in [0, 1), leaves a phase already there alone, and ignores whole cycles |
| Wavetables.FloorShift | src/wavetable.c:176 | floor(x + k) = floor(x) + k for whole k |
| Wavetables.FractionOfWrap | src/wavetable.c:176-177 | truncating toward zero and lifting a negative remainder by one is the fractional part |
| Wavetables.Locate | src/wavetable.c:171-190 | both frame indices and both sample indices are in range. The upper frame is clamped to the last frame, while the upper sample wraps to the first. Both fractions lie in [0, 1) |
| Wavetables.LocateEnds | src/wavetable.c:171-184 | position 0 or below reads the first frame alone; position 1 or above reads the last frame for both neighbours, never wrapping to the first; the lower sample index is floor(phase·256) |
| Wavetables.LerpBetween | src/wavetable.c:198-201 | a linear blend with t in [0, 1] lies between its ends, and is the first end at t = 0 |
| Wavetables.BilinearBounded | src/wavetable.c:192-201 | the bilinear result never leaves the range of the four samples it blends |
| Wavetables.BasicMorphConvex | src/wavetable.c:115-138 | the four morph amounts of every basic frame are non-negative and sum to 1; frame 0 is a pure sine and frame 63 a pure square |
| Wavetables.PwmFrameShape | src/wavetable.c:50-55 | a PWM frame holds +1 exactly where the sample phase is below the frame's pulse width and -1 elsewhere; the width runs from 5% at frame 0 to 95% at frame 63 |
| Wavetables.HarmonicCountRange | src/wavetable.c:148-152 | the harmonic count is 1 at the first frame and 32 at the last, and never decreases from frame to frame |
| Wavetables.DivMonotone | src/wavetable.c:150 | integer division by a positive divisor is monotone |
| Wavetables.PeakIsMax | src/wavetable.c:72-75 | the running maximum of the normalising pass is the largest magnitude in the frame, attained by some sample unless it is 0 |
| Wavetables.Normalised | src/wavetable.c:76-80 | the normalising pass keeps the frame length |
| Wavetables.NormalisedBounded | src/wavetable.c:71-80 | after normalising every sample lies in [-1, 1], and a frame that was not silent reaches magnitude 1 somewhere |
| Wavetables.DivByOwnSize | src/wavetable.c:78 | the peak sample divided by the peak has magnitude 1 |
| Wavetables.DivBounded | src/wavetable.c:78 | a sample no larger than the peak, divided by it, lies in [-1, 1] |
| Wavetables.NormalisedTables | src/wavetable.c:58-110 | every sample of the harmonic and formant tables lies in [-1, 1] |
| Wavetables.WeighBounded | src/wavetable.c:26-42 | a waveform value in [-1, 1] scaled by a non-negative amount stays within that amount of zero |
| Wavetables.BasicSampleBounded | src/wavetable.c:19-47 | every basic-table sample lies in [-1, 1], since the weighted waveforms each lie in [-1, 1] and their amounts sum to 1 |
| Wavetables.TableSampleBounded | src/wavetable.c:112-163 | once wavetables_init has run, every sample of every table lies in [-1, 1] |
| Wavetables.WavetableBank.constructor | src/wavetable.c:8-9 | the static bank starts zeroed, untagged and not initialised |
| Wavetables.WavetableBank.Init | src/wavetable.c:112-163 | the first call fills all four tables and tags each with its type; a later call changes nothing |
| Wavetables.WavetableBank.FillBasic | src/wavetable.c:115-139 | the basic table holds every frame's morph and the other tables are untouched |
| Wavetables.WavetableBank.GenerateBasicFrame | src/wavetable.c:19-47 | frame f of table t holds the basic-morph samples for the given amounts, and no other frame changes |
| Wavetables.WavetableBank.FillPwm | src/wavetable.c:141-146 | the PWM table holds every frame's pulse and the other tables are untouched |
| Wavetables.WavetableBank.GeneratePwmFrame | src/wavetable.c:50-55 | frame f of table t holds the pulse of the given width, and no other frame changes |
| Wavetables.WavetableBank.FillHarmonics | src/wavetable.c:148-153 | the harmonic table holds every frame's normalised harmonic series and the other tables are untouched |
| Wavetables.WavetableBank.GenerateHarmonicFrame | src/wavetable.c:58-81 | frame f of table t holds the normalised sum of the first n harmonics at amplitudes 1/h, and no other frame changes |
| Wavetables.WavetableBank.FillFormant | src/wavetable.c:155-160 | the formant table holds every frame's normalised formant wave and the other tables are untouched |
| Wavetables.WavetableBank.GenerateFormantFrame | src/wavetable.c:84-110 | frame f of table t holds the normalised saw-plus-formant wave, and no other frame changes |
| Wavetables.WavetableBank.FilledIsBounded | src/wavetable.c:112-163 | a filled bank holds no sample outside [-1, 1] |
| Wavetables.WavetableBank.Sample | src/wavetable.c:170-202 | wavetable_sample returns the bilinear blend of the four samples Locate picks, and so stays in [-1, 1] on a filled table |
| Wavetables.WavetableBank.Normalise | src/wavetable.c:71-80 | the frame becomes Normalised of its raw contents and no other frame changes |
| Presets.CString | src/preset.c:21 | what C sees of a buffer: a prefix of it with no NUL, stopping just before the first NUL when there is one |
| Presets.CStringOfPlain | src/preset.c:21 | a string without NUL is its own C string |
| Presets.CStringUpTo | src/preset.c:21 | the C string of a buffer runs up to its first NUL, or to its end |
| Presets.Prefix | src/preset.c:186-187 | the strncpy into an n+1 byte buffer keeps a prefix of at most n characters, and the whole string when it fits |
| Presets.DigitChar | src/preset.c:8 | a decimal digit maps to a character in '0'..'9' |
| Presets.Digits | src/preset.c:8 | the decimal form of a number is a non-empty run of digit characters |
| Presets.ValueOfDigits | src/preset.c:8 | the decimal digits of n read back as n |
| Presets.ValueOfPadded | src/preset.c:8 | leading zeros do not change the value |
| Presets.ValueOfZeros | src/preset.c:8 | a run of zeros reads as 0 |
| Presets.Zeros | src/preset.c:8 | the padding of %03d: k '0' characters |
| Presets.Format03 | src/preset.c:8 | %03d yields at least three characters |
| Presets.FilenameRoundTrip | src/preset.c:7-9 | for slots 0..999 and a buffer of at least 17 bytes, the path is "presets/" + three digits + ".json", 16 characters long, and the slot can be read back from it; so distinct slots name distinct files |
| Presets.SlotOfPath | src/preset.c:8 | a path "presets/ddd.json" names slot ddd |
| Presets.ThreeDigits | src/preset.c:8 | %03d of 0..999 is its three decimal digits, which read back as the number |
| Presets.PaddedTwice | src/preset.c:8 | %03d of 0..9 is two zeros and the digit |
| Presets.PaddedOnce | src/preset.c:8 | %03d of 10..99 is one zero and the two digits |
| Presets.Unpadded | src/preset.c:8 | %03d of 100..999 is the three digits |
| Presets.EscapeAppend | src/preset.c:21-26 | escaping a string with one more character appends that character's escape |
| Presets.EscapePlain | src/preset.c:21-26 | a value with no quote and no backslash is written unchanged |
| Presets.WriteJsonString | src/preset.c:19-28 | the writer emits the key header, the value up to its NUL with every quote and backslash escaped, and a closing quote |
| Presets.ReadFrom | src/preset.c:127-139 | read_string never reads past the end and never stores more than the buffer allows. It returns 0 only just after a closing quote it consumed; -1 means the file ended or the buffer filled |
| Presets.EscapeHead | src/preset.c:21-26 | an escaped character sits in the stream as a backslash followed by the character |
| Presets.EscapeRoundTrip | src/preset.c:127-139 | reading back what write_json_string wrote recovers the value when it fits the buffer, and stops just after the closing quote (write_json_string, lines 19-28) |
| Presets.ReadTruncates | src/preset.c:127-139 | a value longer than the buffer is cut to the buffer and reported as -1 |
| Presets.ReadString | src/preset.c:127-139 | the read loop yields exactly ReadFrom |
| Presets.SkipSpace | src/preset.c:121-125 | skip_whitespace stops at the first character at or after pos that is not white space, or at the end |
| Presets.SkipWhitespace | src/preset.c:121-125 | the loop returns that character and the position after it, or EOF |
| Presets.ColonAfter | src/preset.c:171-172 | the skip to the colon stops just after a ':' and never passes the end; None when the file ends first |
| Presets.ScanNumber | src/preset.c:141-145 | read_number never consumes past the end, and gives 0 when nothing matches |
| Presets.OscillatorKey | src/preset.c:195-207 | an oscillator key makes at most one setter call, and never a volume call |
| Presets.FilterKey | src/preset.c:208-211 | a filter key makes a store exactly when it is type, cutoff or resonance, and never a volume call |
| Presets.AmpEnvKey | src/preset.c:213-217 | an amp_env key makes a store exactly when it is attack, decay, sustain or release |
| Presets.FilterEnvKey | src/preset.c:219-224 | a filter_env key makes a call exactly when it is attack, decay, sustain, release or amount |
| Presets.LfoKey | src/preset.c:227-230 | an lfo key makes at most one setter call, and never a volume call |
| Presets.ArpKey | src/preset.c:231-237 | an arpeggiator key makes at most one store, and never a volume call |
| Presets.EffectsKey | src/preset.c:238-245 | an effects key makes at most one store, and never a volume call |
| Presets.DispatchGroups | src/preset.c:208-226 | in the filter, amp_env and filter_env sections every number ends by re-invoking the section's setter, and an unknown key does only that; elsewhere a number makes at most one call |
| Presets.VolumeOnlyOutsideSections | src/preset.c:195-248 | the master volume is set only by a "volume" key while the current section is none of the seven known ones; outside them every other key is ignored |
| Presets.NoVolumeAppend | src/preset.c:195-248 | joining two call lists without a volume call gives one without a volume call |
| Presets.UncheckedStores | src/preset.c:234-243 | delay_time, reverb_size and the arpeggiator division are stored exactly as read, with no clamp and no range check |
| Presets.CallsAppend | src/preset.c:163-251 | the calls of two runs of numbers are the calls of the first followed by those of the second |
| Presets.CallsStep | src/preset.c:192-248 | one more number adds exactly its own dispatch at the end of the calls |
| Presets.KnownSectionsKeepVolume | src/preset.c:195-248 | numbers read inside the seven known sections never set the master volume |
| Presets.Entry | src/preset.c:166-249 | a key that does not end the loop moves the position forward and adds at most one number, keeping the earlier ones |
| Presets.ValueStep | src/preset.c:175-249 | handling a value moves forward. The section changes only to the key, and only when the value opens with '{'. At most one number is added, recorded under the current section and the key |
| Presets.Load | src/preset.c:153-255 | the loop of preset_load yields the name and the exact sequence of setter calls and field stores that Loaded describes; switched to reset the section on '}', it yields those of LoadedWithClose, the corrected loader |
| Presets.LoadTurn | src/preset.c:163-251 | one turn of the loop moves forward, leaves the rest of the load unchanged and keeps the calls equal to the dispatch of the numbers met, in either loader |
| Presets.LoadSteps | src/preset.c:163-166 | the loop stops at EOF and skips any character outside a key, including '{', ',' and '}'; a quote starts a key |
| Presets.ReadEntry | src/preset.c:166-249 | the key, colon and value code yields exactly Entry |
| Presets.ReadValue | src/preset.c:175-249 | the value code yields exactly ValueStep |
| Presets.NumbersGrow | src/preset.c:163-251 | the loader only ever appends numbers |
| Presets.SectionHolds | src/preset.c:163-180 | with no '{' ahead the section never changes, and every later number is read in the current section |
| Presets.VolumeNotRestored | src/preset.c:163-180 | as written, the "volume" line that preset_save puts after the effects object is read inside the effects section, so no call sets the volume (the tail preset_save writes at lines 108-114 and the dispatch at 238-248) |
| Presets.VolumeRestoredWithClose | src/preset.c:163-164 | when '}' returns to the top level, the same tail records the volume number, and its dispatch calls synth_set_volume (the volume branch at lines 246-248) |
| Presets.VolumeReadWithClose | src/preset.c:163-164 | with '}' closing the section, the volume number is recorded at the top level |
| Presets.VolumeEntry | src/preset.c:166-192 | the volume key read at the top level records the number after it |
| Presets.VolumeValue | src/preset.c:189-192 | the volume value is read as a number under no section |
| Presets.TailSkips | src/preset.c:163-175 | the layout of the saved tail: '}' and ',' are skipped, the key opens at 7, the colon follows it and the number starts at 17 |
| Presets.TailKey | src/preset.c:168 | the key of the tail reads back as "volume" |
| Presets.NameRoundTrip | src/preset.c:166-188 | the name line written by preset_save reads back as the name, cut to the caller's name buffer (the name line written at line 40) |
| Presets.NameLine | src/preset.c:166-184 | the layout of a name line: key "name", the colon, a space, then the quoted value, which reads back whole |
| Presets.NameValue | src/preset.c:181-188 | the string value under "name" becomes the name, cut to the buffer |
| Presets.HeaderKey | src/preset.c:166-175 | a key written by write_json_string reads back as itself; the colon follows it, then a space and the value's opening quote (the key header written at line 20) |
| Presets.AppliedAppend | src/preset.c:192-248 | applying two runs of recorded calls to the synth in turn is applying their concatenation |
| Presets.VolumeCallSetsVolume | src/preset.c:246-248 | a recorded volume call does exactly what synth_set_volume does to the synth: the volume becomes the value clamped to [0, 1] |
| Presets.OtherCallKeepsVolume | src/preset.c:195-245 | every other recorded call, whether a setter, a direct store or a re-invoked setter, leaves the master volume alone |
| Presets.NoVolumeKeepsVolume | src/preset.c:192-248 | a run of calls without a volume call leaves the synth's master volume unchanged |
| Presets.SavedVolumeIgnored | src/preset.c:163-180 | as written, the calls made for the saved tail leave the synth's master volume at whatever it was before (the tail is written at lines 108-114) |
| Presets.SavedVolumeApplied | src/preset.c:163-164 | with '}' closing the section, the calls up to the tail's volume number set the synth's master volume to the saved value, clamped to [0, 1] (the volume branch is at lines 246-248) |

## Left out

- File and console I/O: `fopen`, `fprintf`, `fgetc`, `mkdir` and `stat`. So `preset_save` is modelled only through the text pieces it writes (`WriteJsonString` and the name, closing-brace and volume lines). `preset_exists` and `preset_get_name` are not modelled, because they only query the file system. The loader reads its whole file as a `seq<char>`.
- Presets.ScanNumber: `fscanf("%f")` number syntax is a `NumberScanner` parameter. The only facts used about it are that it consumes no more than the rest of the file and that a failed match gives 0. The `%.4f` formatting of saved numbers is not modelled, so no numeric round trip is proved.
- A NULL `name` argument, for which `preset_save` writes "Untitled" and `preset_load` keeps no name. The model always has a name sequence.
- Presets.Load: requires a name buffer of at least one byte. With `name_size` <= 0, line 186 would hand `strncpy` a negative length.
- The setters `preset_load` calls that are not defined in the modelled files (`synth_set_sub_osc_mix`, `synth_set_unison_count`, `synth_set_unison_spread`, `synth_set_lfo_*`, `synth_set_filter_env_*`, `synth_set_pwm_*`, `synth_set_pulse_width`, `synth_set_wavetable` and `synth_set_wt_position`) are recorded as calls with their arguments. Their effect is not modelled: `Presets.AppliedTo` leaves the synth unchanged for them, and for the stores into Effects and Arpeggiator fields.
- `arp_pattern_name`, `arp_division_name` and `wavetable_name` only return UI strings. `read_int` (src/preset.c:147-151) is never called.
- `src/ui.c`, `src/main.c` and `src/midi.c`: the touch interface, the audio output service and MIDI input lie outside the engine.
- Float rounding, NaN and infinity: reals are exact. `sinf`, `powf`, `tanhf` and `sqrtf` are known only through `Libm.Sound()`.
- Wavetables.WavetableBank.Sample: the phase wrap is exact here, so the wrapped phase is always below 1 (`Wavetables.WrapPhaseIsFraction`). In single precision a tiny negative phase such as -1e-9 wraps to 1.0f, so `sample_lo` becomes 256 and the read goes one past the last sample of the frame (src/wavetable.c:176-188). The model cannot show that read.
- MAX_UNISON is taken as 7 (the largest unison count). Its definition is not part of this model.
- Signed 32-bit overflow is not modelled. The voice's `age` is modelled modulo 2^32. The arpeggiator's `base_note + current_octave * 12` (src/arp.c:234-235) is computed over unbounded integers; with the octave bound below and MIDI note numbers it stays far inside the 32-bit range.
- Arpeggiators.ArpState.Ready: requires 16 · octaves to fit a C int, so that advance_step's `note_count * octaves` (src/arp.c:119) never overflows (`Arpeggiators.TotalStepsFit`). `preset_load` stores `octaves` unchecked (src/preset.c:236). With 16 held notes and octaves = 2^28 the C product overflows, which is undefined behaviour, and the model does not cover that state.
- Comb and all-pass buffers are sequences held by value inside `Reverb`, as C embeds them. Only the delay line keeps its buffer as an `array`. So the model does not capture aliasing between those buffers.
- Arpeggiators.ArpState.Steppable: `arp_process` indexes `division_mult` with a division that `preset_load` stores unchecked. The model requires 0 <= division < 4 on the stepping path, where C would read outside the array.
- EffectsChain.DelayState.Ready: requires a non-negative delay time. A negative time, which only the unchecked store in `preset_load` can produce, makes C index before the buffer.
- EffectsChain.EffectsState.Ready: requires tanh(drive) != 0. A drive of 0, which the setter's clamp to [1, 10] excludes, would divide by zero in `distortion_process`.
- The reverb size that `preset_load` stores directly does not retune the comb feedbacks. The model records only the store, as C does.
- Oscillators.OutputBounded: states the [-1, 1] bound for the square, saw, triangle and noise waves only. For the sine it holds through `Libm.Sound()` and is not restated.
- Lfos.OutputBounded: states the depth bound away from the sine only, for the same reason.
- Presets.SkipSpace: states where the skip stops, but not that every character passed over is white space.
- Presets.ColonAfter: states that it stops just after a ':', but not that no earlier character was a ':'.
- Presets.ValueStep: states that the position does not move back, not that it strictly advances.

## Findings

| source | as written | input that shows it | evidently intended | confidence | as-written member | corrected member |
|---|---|---|---|---|---|---|
| src/preset.c:108-112, 164, 177-180, 246-248 | `preset_save` writes `"volume"` after the closing `}` of the `"effects"` object. The loader skips `}` without leaving the section, so the key is read as `effects.volume`, which no branch handles, and the master volume is never set | the saved tail `  },\n  "volume": ` followed by a number, read while the section is `"effects"` | loading a saved preset restores its master volume | not executed | Presets.SavedVolumeIgnored | Presets.SavedVolumeApplied |

`Presets.SavedVolumeIgnored` applies the calls of the loop as written to
the synth: its master volume is left as it was. `Presets.SavedVolumeApplied`
does the same for the corrected loop, which leaves the saved volume, clamped
by `synth_set_volume`. `Presets.Loaded` and `Presets.Load` with
`resetOnClose` false model the loop as written. `Presets.LoadedWithClose` and `Presets.Load` with `resetOnClose`
true are the corrected loader, in which `}` returns to the top level.
