/** The ADSR envelope of src/envelope.c: a five-stage state machine over a
    level, a per-sample rate and a stage. */
module Envelopes {
  import opened Numeric

  datatype Stage = Idle | Attack | Decay | Sustain | Release

  /** Shortest attack, decay or release time the setter lets through, in seconds. */
  const MinTime: real := 0.001

  /** The value held by an Envelope's fields. */
  datatype EnvState = EnvState(attack: real, decay: real, sustain: real, release: real,
                               stage: Stage, level: real, rate: real)
  {
    /** The timing fields are never below MinTime, so the rates are well defined. */
    ghost predicate TimesValid()
    {
      attack >= MinTime && decay >= MinTime && release >= MinTime
    }

    /** The level invariant: level and sustain in [0,1], rate non-negative. */
    ghost predicate Bounded()
    {
      TimesValid() && 0.0 <= sustain <= 1.0 && 0.0 <= level <= 1.0 && rate >= 0.0
    }

    /** env_is_active */
    predicate Active()
    {
      stage != Idle
    }

    /** env_set_adsr: floors the three times at MinTime, stores sustain as given. */
    function WithAdsr(a: real, d: real, s: real, r: real): EnvState
    {
      this.(attack := if a > MinTime then a else MinTime,
            decay := if d > MinTime then d else MinTime,
            sustain := s,
            release := if r > MinTime then r else MinTime)
    }

    /** env_gate_on: enter Attack from the current level. */
    function GatedOn(): EnvState
      requires TimesValid()
    {
      this.(stage := Attack, rate := 1.0 / (attack * SampleRate))
    }

    /** env_gate_off: enter Release with a rate that reaches zero in
        `release` seconds from the current level; no-op when Idle. */
    function GatedOff(): EnvState
      requires TimesValid()
    {
      if stage == Idle then this
      else this.(stage := Release, rate := level / (release * SampleRate))
    }

    /** env_process: one sample of the state machine; the output is the new
        level. The four ADSR parameters are never touched. */
    function Processed(): (e: EnvState)
      requires TimesValid()
      ensures e.attack == attack && e.decay == decay && e.sustain == sustain && e.release == release
    {
      match stage
      case Idle => this.(level := 0.0)
      case Attack =>
        var l := level + rate;
        if l >= 1.0 then this.(level := 1.0, stage := Decay, rate := (1.0 - sustain) / (decay * SampleRate))
        else this.(level := l)
      case Decay =>
        var l := level - rate;
        if l <= sustain then this.(level := sustain, stage := Sustain)
        else this.(level := l)
      case Sustain => this.(level := sustain)
      case Release =>
        var l := level - rate;
        if l <= 0.0 then this.(level := 0.0, stage := Idle)
        else this.(level := l)
    }
  }

  /** env_init */
  const InitialEnv: EnvState := EnvState(0.01, 0.1, 0.7, 0.3, Idle, 0.0, 0.0)

  /** n consecutive calls of env_process. */
  function Run(e: EnvState, n: nat): EnvState
    requires e.TimesValid()
    ensures Run(e, n).TimesValid()
  {
    if n == 0 then e else Run(e, n - 1).Processed()
  }

  /** With sustain in [0,1], every env_process keeps the level in [0,1] and
      the rate non-negative; gate-on and gate-off keep it too. */
  lemma ProcessKeepsBounded(e: EnvState)
    requires e.Bounded()
    ensures e.Processed().Bounded()
    ensures e.GatedOn().Bounded() && e.GatedOff().Bounded()
  {
    assert e.attack * SampleRate > 0.0;
    assert e.decay * SampleRate > 0.0;
    assert e.release * SampleRate > 0.0;
  }

  /** Attack from level 0 with attack time N/44100 seconds: for the first
      N-1 samples the envelope ramps by 1/N per sample and stays in
      Attack; the N-th sample clamps the level to exactly 1 and enters Decay. */
  lemma {:induction false} AttackRamp(e: EnvState, big: nat, n: nat)
    requires e.TimesValid() && e.stage == Attack && e.level == 0.0
    requires big > 0 && e.rate == 1.0 / big as real
    requires n <= big
    ensures n < big ==> Run(e, n).stage == Attack && Run(e, n).level == n as real / big as real
                        && Run(e, n).rate == e.rate && Run(e, n).sustain == e.sustain
    ensures n == big ==> Run(e, n).stage == Decay && Run(e, n).level == 1.0
  {
    if n > 0 {
      AttackRamp(e, big, n - 1);
      var p := Run(e, n - 1);
      assert p.level + p.rate == n as real / big as real;
      if n < big {
        assert n as real / big as real < 1.0;
      } else {
        assert n as real / big as real == 1.0;
      }
    }
  }

  /** An attack of 0.1 s from gate-on at level 0 reaches
      Decay with level exactly 1.0 after 4410 samples, and not before. */
  lemma AttackOfTenthSecond(e: EnvState)
    requires e.TimesValid() && e.stage == Idle && e.level == 0.0 && e.attack == 0.1
    ensures Run(e.GatedOn(), 4409).stage == Attack
    ensures Run(e.GatedOn(), 4410).stage == Decay && Run(e.GatedOn(), 4410).level == 1.0
  {
    AttackRamp(e.GatedOn(), 4410, 4409);
    AttackRamp(e.GatedOn(), 4410, 4410);
  }

  /** Release from any level L > 0 with release time N/44100 seconds lasts
      exactly N samples whatever L is: after n < N samples the level is
      L - n·L/N > 0, and the N-th sample reaches level 0 and Idle. */
  lemma {:induction false} ReleaseRamp(e: EnvState, big: nat, n: nat)
    requires e.TimesValid() && e.stage == Release && e.level > 0.0
    requires big > 0 && e.rate == e.level / big as real
    requires n <= big
    ensures n < big ==> Run(e, n).stage == Release && Run(e, n).rate == e.rate
                        && Run(e, n).level == e.level - n as real * e.rate
                        && Run(e, n).level > 0.0
    ensures n == big ==> Run(e, n).stage == Idle && Run(e, n).level == 0.0
  {
    if n > 0 {
      ReleaseRamp(e, big, n - 1);
      ReleaseArithmetic(e.level, big, n, e.rate);
    }
  }

  /** The arithmetic of one release step: with rate L/N, taking the rate
      off L - (n-1)·rate gives L - n·rate, positive before the N-th step
      and exactly 0 at it. */
  lemma ReleaseArithmetic(level: real, big: nat, n: nat, rate: real)
    requires level > 0.0 && big > 0 && rate == level / big as real && 0 < n <= big
    ensures rate > 0.0
    ensures (level - (n - 1) as real * rate) - rate == level - n as real * rate
    ensures n < big ==> level - n as real * rate > 0.0
    ensures n == big ==> level - n as real * rate == 0.0
  {
    assert big as real * rate == level;
    if n < big {
      assert level - n as real * rate == (big - n) as real * rate;
      assert (big - n) as real * rate > 0.0;
    }
  }

  /** Gate-off at level L sets the rate L/(release·44100), so release lasts
      release·44100 samples from any level: the same release time from
      level 0.5 or 1.0 takes the same number of samples. */
  lemma ReleaseLastsReleaseTime(e: EnvState, big: nat)
    requires e.TimesValid() && e.stage != Idle && e.level > 0.0
    requires big > 0 && e.release * SampleRate == big as real
    ensures Run(e.GatedOff(), big - 1).stage == Release
    ensures Run(e.GatedOff(), big).stage == Idle && Run(e.GatedOff(), big).level == 0.0
  {
    ReleaseRamp(e.GatedOff(), big, big - 1);
    ReleaseRamp(e.GatedOff(), big, big);
  }

  /** The Envelope struct, updated in place by the env_* functions. */
  class Envelope {
    var attack: real
    var decay: real
    var sustain: real
    var release: real
    var stage: Stage
    var level: real
    var rate: real

    ghost function State(): EnvState
      reads this
    {
      EnvState(attack, decay, sustain, release, stage, level, rate)
    }

    ghost predicate Valid()
      reads this
    {
      State().TimesValid()
    }

    /** env_is_active */
    predicate IsActive()
      reads this
    {
      stage != Idle
    }

    /** env_init */
    constructor ()
      ensures Valid() && State() == InitialEnv
    {
      attack, decay, sustain, release := 0.01, 0.1, 0.7, 0.3;
      stage, level, rate := Idle, 0.0, 0.0;
    }

    /** env_set_adsr */
    method SetAdsr(a: real, d: real, s: real, r: real)
      modifies this
      ensures Valid()
      ensures State() == old(State()).WithAdsr(a, d, s, r)
      ensures attack >= MinTime && decay >= MinTime && release >= MinTime && sustain == s
    {
      attack := if a > MinTime then a else MinTime;
      decay := if d > MinTime then d else MinTime;
      sustain := s;
      release := if r > MinTime then r else MinTime;
    }

    /** env_gate_on: stage Attack, rate 1/(attack·44100), level kept. */
    method GateOn()
      requires Valid()
      modifies this
      ensures Valid()
      ensures State() == old(State()).GatedOn()
      ensures stage == Attack && rate == 1.0 / (attack * SampleRate) && level == old(level)
    {
      stage := Attack;
      rate := 1.0 / (attack * SampleRate);
    }

    /** env_gate_off: no-op when Idle, otherwise Release with rate level/(release·44100). */
    method GateOff()
      requires Valid()
      modifies this
      ensures Valid()
      ensures State() == old(State()).GatedOff()
      ensures old(stage) == Idle ==> State() == old(State())
      ensures old(stage) != Idle ==> stage == Release && rate == level / (release * SampleRate)
    {
      if stage != Idle {
        stage := Release;
        rate := level / (release * SampleRate);
      }
    }

    /** env_process: advances one sample and returns the new level. */
    method Process() returns (out: real)
      requires Valid()
      modifies this
      ensures Valid()
      ensures State() == old(State()).Processed()
      ensures out == level
      ensures old(State()).Bounded() ==> State().Bounded()
    {
      match stage {
      case Idle =>
        level := 0.0;
      case Attack =>
        level := level + rate;
        if level >= 1.0 {
          level := 1.0;
          stage := Decay;
          rate := (1.0 - sustain) / (decay * SampleRate);
        }
      case Decay =>
        level := level - rate;
        if level <= sustain {
          level := sustain;
          stage := Sustain;
        }
      case Sustain =>
        level := sustain;
      case Release =>
        level := level - rate;
        if level <= 0.0 {
          level := 0.0;
          stage := Idle;
        }
      }
      out := level;
      if old(State()).Bounded() {
        ProcessKeepsBounded(old(State()));
      }
    }
  }
}
