/** The effects chain of src/effects.c: a one-second delay line, a
    Schroeder reverb of four parallel comb filters feeding two all-pass
    filters in series, and a tanh soft-clip distortion, applied in the
    order distortion, delay, reverb. Every filter is a ring buffer written
    in place at a cursor that advances by one modulo its length. */
module EffectsChain {
  import opened Numeric

  /** DELAY_BUFFER_SIZE: one second of samples. */
  const DelayBufferSize: int := 44100
  /** COMB_BUFFER_SIZE and ALLPASS_BUFFER_SIZE */
  const CombBufferSize: int := 4096
  const AllpassBufferSize: int := 1024

  /** COMB_TUNINGS and ALLPASS_TUNINGS, in samples. */
  const CombTunings: seq<int> := [1116, 1188, 1277, 1356]
  const AllpassTunings: seq<int> := [556, 441]

  /** What a feedback line stores: the input plus the cell it read,
      scaled by the feedback gain. */
  function Feedback(input: real, held: real, gain: real): real
  {
    input + held * gain
  }

  /** The dry/wet blend every effect returns: dry·(1 - mix) + wet·mix. */
  function Blend(dry: real, wet: real, mix: real): real
  {
    dry * (1.0 - mix) + wet * mix
  }

  // ---------------------------------------------------------------------
  // Ring positions

  /** The cursor k steps after p in a ring of n cells, each step being
      `(p + 1) % n`; written in closed form for k <= n. */
  function Ahead(p: int, k: int, n: int): (q: int)
    requires 0 <= p < n && 0 <= k <= n
    ensures 0 <= q < n
    ensures 0 < k < n ==> q != p
    ensures k == n ==> q == p
  {
    if p + k < n then p + k else p + k - n
  }

  /** One cursor step `(p + 1) % n` is one step ahead. */
  lemma StepIsAhead(p: int, n: int)
    requires 0 <= p < n
    ensures (p + 1) % n == Ahead(p, 1, n)
  {
    if p + 1 == n {
      assert (p + 1) % n == 0;
    } else {
      assert (p + 1) % n == p + 1;
    }
  }

  /** k + 1 steps from p are k steps from the cell after p. */
  lemma AheadShift(p: int, k: int, n: int)
    requires 0 <= p < n && 0 <= k < n
    ensures Ahead(Ahead(p, 1, n), k, n) == Ahead(p, k + 1, n)
  {
  }

  // ---------------------------------------------------------------------
  // Comb and all-pass filters: a ring that stores input + buffered·feedback

  /** The fields of a CombFilter or an AllpassFilter: both read the cell at
      the cursor, store input + buffered·feedback there, and advance the
      cursor modulo size. They differ only in what they return. */
  datatype Ring = Ring(buffer: seq<real>, size: int, pos: int, feedback: real)
  {
    ghost predicate Ready()
    {
      0 < size <= |buffer| && 0 <= pos < size
    }

    /** The cell at the cursor, read before it is overwritten. */
    function Buffered(): real
      requires Ready()
    {
      buffer[pos]
    }

    /** The ring after one comb_process or allpass_process call. */
    function Fed(input: real): (r: Ring)
      requires Ready()
      ensures r.Ready() && r.size == size && r.feedback == feedback
    {
      this.(buffer := buffer[pos := Feedback(input, Buffered(), feedback)], pos := (pos + 1) % size)
    }

    /** comb_process returns the buffered cell. */
    function CombOutput(): real
      requires Ready()
    {
      Buffered()
    }

    /** allpass_process returns the buffered cell minus the input. */
    function AllpassOutput(input: real): real
      requires Ready()
    {
      -input + Buffered()
    }
  }

  /** The ring after a sequence of calls, one per input. */
  function RunRing(r: Ring, xs: seq<real>): (t: Ring)
    requires r.Ready()
    ensures t.Ready() && t.size == r.size && t.feedback == r.feedback && |t.buffer| == |r.buffer|
    decreases |xs|
  {
    if |xs| == 0 then r else RunRing(r.Fed(xs[0]), xs[1..])
  }

  /** comb_init and allpass_init: a requested size that does not fit the
      buffer is cut to the buffer length minus one. */
  function FittedSize(size: int, capacity: int): int
  {
    if size < capacity then size else capacity - 1
  }

  /** The tunings all fit their buffers, so every comb and all-pass keeps
      its nominal length. */
  lemma TuningsFit()
    ensures forall i :: 0 <= i < |CombTunings| ==> FittedSize(CombTunings[i], CombBufferSize) == CombTunings[i]
    ensures forall i :: 0 <= i < |AllpassTunings| ==> FittedSize(AllpassTunings[i], AllpassBufferSize) == AllpassTunings[i]
  {
  }

  /** A buffer of n silent samples. */
  function Silence(n: nat): (b: seq<real>)
    ensures |b| == n && forall k :: 0 <= k < n ==> b[k] == 0.0
  {
    seq(n, _ => 0.0)
  }

  /** comb_init: a silent buffer, the size fitted to it, the cursor at 0. */
  function CombInit(size: int, gain: real): Ring
  {
    Ring(Silence(CombBufferSize), FittedSize(size, CombBufferSize), 0, gain)
  }

  /** allpass_init: as comb_init, on the shorter all-pass buffer. */
  function AllpassInit(size: int, gain: real): Ring
  {
    Ring(Silence(AllpassBufferSize), FittedSize(size, AllpassBufferSize), 0, gain)
  }

  /** A freshly initialised comb or all-pass is ready to run whenever the
      requested size is positive, and its length never exceeds its buffer
      less one cell when the request does not fit. */
  lemma InitReady(size: int, gain: real)
    requires 0 < size
    ensures CombInit(size, gain).Ready() && AllpassInit(size, gain).Ready()
    ensures size >= CombBufferSize ==> CombInit(size, gain).size == CombBufferSize - 1
    ensures size >= AllpassBufferSize ==> AllpassInit(size, gain).size == AllpassBufferSize - 1
    ensures size < AllpassBufferSize ==> AllpassInit(size, gain).size == size
    ensures size < CombBufferSize ==> CombInit(size, gain).size == size
  {
  }

  /** One call writes only the cell at the cursor, and moves the cursor one
      cell on, wrapping at size. */
  lemma FedEffect(r: Ring, x: real)
    requires r.Ready()
    ensures |r.Fed(x).buffer| == |r.buffer|
    ensures r.Fed(x).buffer[r.pos] == Feedback(x, r.Buffered(), r.feedback)
    ensures forall k :: 0 <= k < |r.buffer| && k != r.pos ==> r.Fed(x).buffer[k] == r.buffer[k]
    ensures r.Fed(x).pos == Ahead(r.pos, 1, r.size)
  {
    StepIsAhead(r.pos, r.size);
  }

  /** After k calls (k <= size) the cursor is k cells on, and every cell
      the k writes did not visit holds what it held. */
  lemma {:induction false} RunRingEffect(r: Ring, xs: seq<real>)
    requires r.Ready() && |xs| <= r.size
    decreases |xs|
    ensures RunRing(r, xs).pos == Ahead(r.pos, |xs|, r.size)
    ensures forall q :: 0 <= q < |r.buffer| && (forall j :: 0 <= j < |xs| ==> Ahead(r.pos, j, r.size) != q) ==>
              RunRing(r, xs).buffer[q] == r.buffer[q]
  {
    if |xs| > 0 {
      var r1 := r.Fed(xs[0]);
      FedEffect(r, xs[0]);
      RunRingEffect(r1, xs[1..]);
      AheadShift(r.pos, |xs| - 1, r.size);
      forall q | 0 <= q < |r.buffer| && (forall j :: 0 <= j < |xs| ==> Ahead(r.pos, j, r.size) != q)
        ensures RunRing(r, xs).buffer[q] == r.buffer[q]
      {
        assert Ahead(r.pos, 0, r.size) != q;
        forall j | 0 <= j < |xs| - 1
          ensures Ahead(r1.pos, j, r.size) != q
        {
          AheadShift(r.pos, j, r.size);
          assert Ahead(r.pos, j + 1, r.size) != q;
        }
      }
    }
  }

  /** The feedback recurrence of a comb or all-pass of length size: the
      cell read size calls after the call with input x and buffered value b
      holds x + b·feedback, whatever the inputs in between were. */
  lemma RingRecurrence(r: Ring, x: real, ys: seq<real>)
    requires r.Ready() && |ys| == r.size - 1
    ensures RunRing(r.Fed(x), ys).Buffered() == Feedback(x, r.Buffered(), r.feedback)
  {
    var r1 := r.Fed(x);
    FedEffect(r, x);
    RunRingEffect(r1, ys);
    AheadShift(r.pos, r.size - 1, r.size);
    forall j | 0 <= j < |ys|
      ensures Ahead(r1.pos, j, r.size) != r.pos
    {
      AheadShift(r.pos, j, r.size);
    }
  }

  // ---------------------------------------------------------------------
  // The delay line

  /** delay_process's delay_samples: time in samples, truncated as C's
      (int) cast does, capped at the buffer length minus one. */
  function DelaySamples(time: real): (n: int)
    ensures 0.0 <= time ==> 0 <= n < DelayBufferSize
    ensures n <= DelayBufferSize - 1
  {
    var n := Trunc(time * SampleRate);
    if n >= DelayBufferSize then DelayBufferSize - 1 else n
  }

  /** delay_process's read_pos: delay_samples behind the write cursor,
      wrapped once. */
  function ReadPos(writePos: int, delaySamples: int): (r: int)
    ensures 0 <= writePos < DelayBufferSize && 0 <= delaySamples < DelayBufferSize ==>
      0 <= r < DelayBufferSize && r == (writePos - delaySamples) % DelayBufferSize
  {
    var r := writePos - delaySamples;
    if r < 0 then r + DelayBufferSize else r
  }

  /** Within the setter ranges, a delay of time seconds is between 441 and
      44099 samples, so the read position is always a different cell from
      the write position. */
  lemma DelaySamplesRange(time: real)
    requires 0.01 <= time <= 1.0
    ensures 441 <= DelaySamples(time) <= DelayBufferSize - 1
  {
    assert time * SampleRate >= 441.0;
  }

  /** The fields of a Delay. */
  datatype DelayState = DelayState(buffer: seq<real>, writePos: int, time: real, feedback: real, mix: real)
  {
    /** What delay_process needs to stay in bounds: the full buffer, the
        cursor on it, and a time that is not negative. */
    ghost predicate Ready()
    {
      |buffer| == DelayBufferSize && 0 <= writePos < DelayBufferSize && 0.0 <= time
    }

    /** The ranges the setters keep. */
    ghost predicate InRange()
    {
      0.01 <= time <= 1.0 && 0.0 <= feedback <= 0.9 && 0.0 <= mix <= 1.0
    }

    /** The cell delay_process reads, before it writes. */
    function Delayed(): real
      requires Ready()
    {
      buffer[ReadPos(writePos, DelaySamples(time))]
    }

    /** The delay line after delay_process: input + delayed·feedback is
        stored at the write cursor, which advances modulo the buffer. */
    function Processed(input: real): (d: DelayState)
      requires Ready()
      ensures d.Ready()
    {
      this.(buffer := buffer[writePos := Feedback(input, Delayed(), feedback)],
            writePos := (writePos + 1) % DelayBufferSize)
    }

    /** What delay_process returns: the dry input and the delayed sample,
        mixed. */
    function Output(input: real): real
      requires Ready()
    {
      Blend(input, Delayed(), mix)
    }
  }

  /** delay_process stores its value at the write cursor and moves on. */
  lemma ProcessedWrites(d: DelayState, input: real, v: real)
    requires d.Ready() && v == Feedback(input, d.Delayed(), d.feedback)
    ensures d.Processed(input) == DelayState(d.buffer[d.writePos := v], (d.writePos + 1) % DelayBufferSize, d.time, d.feedback, d.mix)
  {
  }

  /** The delay line after a sequence of calls, one per input. */
  function RunDelay(d: DelayState, xs: seq<real>): (t: DelayState)
    requires d.Ready()
    ensures t.Ready() && t.time == d.time && t.feedback == d.feedback && t.mix == d.mix
    decreases |xs|
  {
    if |xs| == 0 then d else RunDelay(d.Processed(xs[0]), xs[1..])
  }

  /** The delay line seen as a ring of its own length. */
  function DelayRing(d: DelayState): (r: Ring)
    requires d.Ready()
    ensures r.Ready()
  {
    Ring(d.buffer, DelayBufferSize, d.writePos, 0.0)
  }

  /** The values the calls store, one per input: input + delayed·feedback. */
  function Stored(d: DelayState, xs: seq<real>): (vs: seq<real>)
    requires d.Ready()
    ensures |vs| == |xs|
    decreases |xs|
  {
    if |xs| == 0 then [] else [Feedback(xs[0], d.Delayed(), d.feedback)] + Stored(d.Processed(xs[0]), xs[1..])
  }

  /** The delay line writes exactly like a ring without feedback that is
      fed the stored values: the same cell changes and the cursor moves on
      by one, so the ring lemmas about cursors and untouched cells carry
      over. */
  lemma {:induction false} RunDelayIsRing(d: DelayState, xs: seq<real>)
    requires d.Ready()
    ensures RunDelay(d, xs).buffer == RunRing(DelayRing(d), Stored(d, xs)).buffer
    ensures RunDelay(d, xs).writePos == RunRing(DelayRing(d), Stored(d, xs)).pos
    decreases |xs|
  {
    if |xs| > 0 {
      var d1 := d.Processed(xs[0]);
      var v := Feedback(xs[0], d.Delayed(), d.feedback);
      assert Feedback(v, d.buffer[d.writePos], 0.0) == v;
      assert DelayRing(d).Fed(v) == DelayRing(d1);
      assert Stored(d, xs)[1..] == Stored(d1, xs[1..]);
      RunDelayIsRing(d1, xs[1..]);
    }
  }

  /** The echo: with the delay time in its range, the sample stored by one
      call (input + delayed·feedback) is exactly the one read back
      delay_samples calls later, whatever the inputs in between. */
  lemma DelayEcho(d: DelayState, x: real, ys: seq<real>)
    requires d.Ready() && d.InRange()
    requires |ys| == DelaySamples(d.time) - 1
    ensures RunDelay(d.Processed(x), ys).Delayed() == Feedback(x, d.Delayed(), d.feedback)
  {
    var n := DelaySamples(d.time);
    DelaySamplesRange(d.time);
    var d1 := d.Processed(x);
    var r1 := DelayRing(d1);
    StepIsAhead(d.writePos, DelayBufferSize);
    RunDelayIsRing(d1, ys);
    RunRingEffect(r1, Stored(d1, ys));
    AheadShift(d.writePos, |ys|, DelayBufferSize);
    forall j | 0 <= j < |ys|
      ensures Ahead(r1.pos, j, DelayBufferSize) != d.writePos
    {
      AheadShift(d.writePos, j, DelayBufferSize);
    }
    var t := RunDelay(d1, ys);
    assert t.writePos == Ahead(d.writePos, n, DelayBufferSize);
    assert ReadPos(t.writePos, n) == d.writePos;
  }

  /** With a mix in [0,1] (as every mix setter clamps it) the output of
      an effect is a blend of the dry and the wet signal, so it never
      exceeds a bound both keep; mix 0 is the dry signal alone and mix 1
      the wet signal alone. */
  lemma BlendBounded(dry: real, wet: real, mix: real, b: real)
    requires 0.0 <= mix <= 1.0 && -b <= dry <= b && -b <= wet <= b
    ensures -b <= Blend(dry, wet, mix) <= b
    ensures mix == 0.0 ==> Blend(dry, wet, mix) == dry
    ensures mix == 1.0 ==> Blend(dry, wet, mix) == wet
  {
    assert dry * (1.0 - mix) <= b * (1.0 - mix) && -b * (1.0 - mix) <= dry * (1.0 - mix);
    assert wet * mix <= b * mix && -b * mix <= wet * mix;
  }

  // ---------------------------------------------------------------------
  // Reverb

  /** reverb_set_roomsize's comb feedback: 0.7 at size 0 up to 0.98 at 1. */
  function RoomFeedback(size: real): real
  {
    0.7 + size * 0.28
  }

  /** The comb feedback stays in [0.7, 0.98] for a size in [0,1], so the
      combs never build up; and reverb_init's 0.84 is the feedback of its
      initial room size 0.5. */
  lemma RoomFeedbackRange(size: real)
    requires 0.0 <= size <= 1.0
    ensures 0.7 <= RoomFeedback(size) <= 0.98
    ensures RoomFeedback(0.5) == 0.84
  {
  }

  /** The fields of a Reverb. */
  datatype ReverbState = ReverbState(combs: seq<Ring>, allpasses: seq<Ring>, mix: real, roomsize: real)
  {
    ghost predicate Ready()
    {
      |combs| == 4 && |allpasses| == 2 &&
      (forall i :: 0 <= i < 4 ==> combs[i].Ready()) &&
      allpasses[0].Ready() && allpasses[1].Ready()
    }

    /** The comb outputs, summed in index order and divided by four. */
    function CombMean(): real
      requires Ready()
    {
      CombSum(combs, 4) / 4.0
    }

    /** The output of the first all-pass, fed the comb mean. */
    function FirstAllpass(): real
      requires Ready()
    {
      allpasses[0].AllpassOutput(CombMean())
    }

    /** The wet signal: the second all-pass fed the first one's output. */
    function Wet(): real
      requires Ready()
    {
      allpasses[1].AllpassOutput(FirstAllpass())
    }

    /** What reverb_process returns. */
    function Output(input: real): real
      requires Ready()
    {
      Blend(input, Wet(), mix)
    }

    /** The reverb after reverb_set_roomsize: the size clamped to [0,1]
        and every comb's feedback derived from it. */
    function Resized(size: real): (r: ReverbState)
      requires Ready()
    {
      var sz := Clamp(size, 0.0, 1.0);
      this.(roomsize := sz, combs := Retuned(combs, RoomFeedback(sz)))
    }

    /** The reverb after reverb_process: every comb fed the input, the
        first all-pass fed the comb mean, the second the first's output. */
    function Processed(input: real): (r: ReverbState)
      requires Ready()
      ensures r.Ready()
    {
      this.(combs := FedAll(combs, input, 4),
            allpasses := [allpasses[0].Fed(CombMean()), allpasses[1].Fed(FirstAllpass())])
    }
  }

  /** The combs with their feedback set to gain. */
  function Retuned(cs: seq<Ring>, gain: real): (r: seq<Ring>)
    ensures |r| == |cs| && forall i :: 0 <= i < |cs| ==> r[i] == cs[i].(feedback := gain)
  {
    seq(|cs|, i requires 0 <= i < |cs| => cs[i].(feedback := gain))
  }

  /** reverb_set_roomsize keeps the reverb ready to run, leaves buffers,
      cursors, all-passes and mix alone, and gives every comb the same
      feedback, in [0.7, 0.98], that matches the new room size. */
  lemma ResizedTunesCombs(s: ReverbState, size: real)
    requires s.Ready()
    ensures s.Resized(size).Ready()
    ensures 0.0 <= s.Resized(size).roomsize <= 1.0
    ensures forall i :: 0 <= i < 4 ==>
      s.Resized(size).combs[i].feedback == RoomFeedback(s.Resized(size).roomsize) &&
      s.Resized(size).combs[i].buffer == s.combs[i].buffer &&
      s.Resized(size).combs[i].pos == s.combs[i].pos && s.Resized(size).combs[i].size == s.combs[i].size
    ensures 0.7 <= RoomFeedback(s.Resized(size).roomsize) <= 0.98
    ensures s.Resized(size).allpasses == s.allpasses && s.Resized(size).mix == s.mix
  {
    RoomFeedbackRange(Clamp(size, 0.0, 1.0));
  }

  /** The sum of the first k comb outputs, added in index order. */
  function CombSum(cs: seq<Ring>, k: nat): real
    requires k <= |cs| && forall i :: 0 <= i < k ==> cs[i].Ready()
  {
    if k == 0 then 0.0 else CombSum(cs, k - 1) + cs[k - 1].CombOutput()
  }

  /** The combs with the first k fed the input and the rest as they were. */
  function FedAll(cs: seq<Ring>, input: real, k: nat): (r: seq<Ring>)
    requires k <= |cs| && forall i :: 0 <= i < |cs| ==> cs[i].Ready()
    ensures |r| == |cs| && forall i :: 0 <= i < |r| ==> r[i].Ready()
    ensures forall i :: 0 <= i < k ==> r[i] == cs[i].Fed(input)
    ensures forall i :: k <= i < |cs| ==> r[i] == cs[i]
  {
    if k == 0 then cs else FedAll(cs, input, k - 1)[k - 1 := cs[k - 1].Fed(input)]
  }

  /** A reverb with mix 0 passes its input through dry, and with mix 1
      returns the wet signal alone. */
  lemma ReverbMixEnds(s: ReverbState, x: real)
    requires s.Ready()
    ensures s.mix == 0.0 ==> s.Output(x) == x
    ensures s.mix == 1.0 ==> s.Output(x) == s.Wet()
  {
  }

  /** The wet signal of reverb_process is the all-pass pair applied in
      series to the mean of the four comb outputs. */
  lemma ReverbWetPath(s: ReverbState)
    requires s.Ready()
    ensures s.Wet() == -(-((s.combs[0].Buffered() + s.combs[1].Buffered() + s.combs[2].Buffered()
                               + s.combs[3].Buffered()) / 4.0) + s.allpasses[0].Buffered())
                       + s.allpasses[1].Buffered()
  {
    assert CombSum(s.combs, 1) == s.combs[0].Buffered();
    assert CombSum(s.combs, 2) == s.combs[0].Buffered() + s.combs[1].Buffered();
    assert CombSum(s.combs, 3) == s.combs[0].Buffered() + s.combs[1].Buffered() + s.combs[2].Buffered();
    assert CombSum(s.combs, 4) == s.combs[0].Buffered() + s.combs[1].Buffered()
                                  + s.combs[2].Buffered() + s.combs[3].Buffered();
  }

  // ---------------------------------------------------------------------
  // Distortion

  /** The fields of a Distortion. */
  datatype DistortionState = DistortionState(drive: real, mix: real)
  {
    ghost predicate InRange()
    {
      1.0 <= drive <= 10.0 && 0.0 <= mix <= 1.0
    }

    /** The input scaled by the drive. */
    function Driven(input: real): real
    {
      input * drive
    }

    /** The soft-clipped signal: tanh(input·drive), normalised by
        tanh(drive) so that an input of 1 stays 1. */
    function Shaped(m: Libm, input: real): real
      requires m.tanh(drive) != 0.0
    {
      m.tanh(Driven(input)) / m.tanh(drive)
    }

    /** distortion_process: the shaped signal blended with the dry input. */
    function Output(m: Libm, input: real): real
      requires m.tanh(drive) != 0.0
    {
      Blend(input, Shaped(m, input), mix)
    }
  }

  /** A drive in its range has a non-zero normaliser; the normalisation
      maps a full-scale input of 1 to exactly 1 and is odd whenever tanh
      is; a mix of 0 leaves the signal untouched and a mix of 1 is the
      shaped signal alone. */
  lemma DistortionShape(s: DistortionState, m: Libm, x: real)
    requires s.InRange() && m.Sound()
    ensures m.tanh(s.drive) != 0.0
    ensures s.Shaped(m, 1.0) == 1.0
    ensures (forall y :: m.tanh(-y) == -m.tanh(y)) ==> s.Shaped(m, -x) == -s.Shaped(m, x)
    ensures s.mix == 0.0 ==> s.Output(m, x) == x
    ensures s.mix == 1.0 ==> s.Output(m, x) == s.Shaped(m, x)
  {
    assert s.Driven(1.0) == s.drive;
    assert s.Driven(-x) == -s.Driven(x);
  }

  // ---------------------------------------------------------------------
  // The chain

  /** The fields of an Effects. */
  datatype EffectsState = EffectsState(delay: DelayState, reverb: ReverbState, distortion: DistortionState)
  {
    ghost predicate Ready(m: Libm)
    {
      delay.Ready() && reverb.Ready() && m.tanh(distortion.drive) != 0.0
    }

    /** effects_process: distortion, then delay, then reverb, each once. */
    function Output(m: Libm, input: real): real
      requires Ready(m)
    {
      reverb.Output(delay.Output(distortion.Output(m, input)))
    }

    /** The chain after effects_process: the delay fed the distorted input,
        the reverb fed the delay's output. */
    function Processed(m: Libm, input: real): (r: EffectsState)
      requires Ready(m)
      ensures r.Ready(m)
    {
      var distorted := distortion.Output(m, input);
      this.(delay := delay.Processed(distorted), reverb := reverb.Processed(delay.Output(distorted)))
    }
  }

  /** With every mix at 0 the chain is transparent: the output is the
      input, though the delay and reverb still take it in. */
  lemma DryChainIsTransparent(s: EffectsState, m: Libm, x: real)
    requires s.Ready(m) && s.distortion.mix == 0.0 && s.delay.mix == 0.0 && s.reverb.mix == 0.0
    ensures s.Output(m, x) == x
  {
  }

  /** The initial chain: delay 0.3 s, feedback 0.4, mix 0.3; combs of the
      tuned lengths with feedback 0.84, all-passes with feedback 0.5,
      reverb mix 0.2 and room size 0.5; distortion drive 1, mix 0 (off). */
  function InitialEffects(): EffectsState
  {
    EffectsState(
      DelayState(Silence(DelayBufferSize), 0, 0.3, 0.4, 0.3),
      ReverbState([CombInit(CombTunings[0], 0.84), CombInit(CombTunings[1], 0.84),
                   CombInit(CombTunings[2], 0.84), CombInit(CombTunings[3], 0.84)],
                  [AllpassInit(AllpassTunings[0], 0.5), AllpassInit(AllpassTunings[1], 0.5)],
                  0.2, 0.5),
      DistortionState(1.0, 0.0))
  }

  /** effects_init gives a chain ready to run whose settings are all in
      their setter ranges, whose distortion is dry and whose comb feedback
      matches its room size. */
  lemma InitialEffectsReady(m: Libm)
    requires m.Sound()
    ensures InitialEffects().Ready(m)
    ensures InitialEffects().delay.InRange() && InitialEffects().distortion.InRange()
    ensures forall i :: 0 <= i < 4 ==> InitialEffects().reverb.combs[i].feedback == RoomFeedback(InitialEffects().reverb.roomsize)
    ensures InitialEffects().distortion.mix == 0.0
  {
    RoomFeedbackRange(0.5);
  }

  // ---------------------------------------------------------------------
  // The structs, updated in place

  /** The Delay struct. */
  class Delay {
    const buffer: array<real>
    var writePos: int
    var time: real
    var feedback: real
    var mix: real

    ghost function State(): DelayState
      reads this, buffer
    {
      DelayState(buffer[..], writePos, time, feedback, mix)
    }

    ghost predicate Valid()
      reads this, buffer
    {
      State().Ready() && State().InRange()
    }

    /** delay_init: a silent buffer, 0.3 s, feedback 0.4, mix 0.3. */
    constructor ()
      ensures Valid() && State() == InitialEffects().delay && fresh(buffer)
    {
      buffer := new real[DelayBufferSize](_ => 0.0);
      writePos := 0;
      time, feedback, mix := 0.3, 0.4, 0.3;
      new;
      assert buffer[..] == Silence(DelayBufferSize);
    }

    /** delay_set_time: clamped to [0.01, 1]. */
    method SetTime(t: real)
      modifies this`time
      ensures State() == old(State()).(time := Clamp(t, 0.01, 1.0))
      ensures old(Valid()) ==> Valid()
    {
      var x := t;
      if x < 0.01 { x := 0.01; }
      if x > 1.0 { x := 1.0; }
      time := x;
    }

    /** delay_set_feedback: clamped to [0, 0.9]. */
    method SetFeedback(f: real)
      modifies this`feedback
      ensures State() == old(State()).(feedback := Clamp(f, 0.0, 0.9))
      ensures old(Valid()) ==> Valid()
    {
      var x := f;
      if x < 0.0 { x := 0.0; }
      if x > 0.9 { x := 0.9; }
      feedback := x;
    }

    /** delay_set_mix: clamped to [0, 1]. */
    method SetMix(x0: real)
      modifies this`mix
      ensures State() == old(State()).(mix := Clamp(x0, 0.0, 1.0))
      ensures old(Valid()) ==> Valid()
    {
      var x := x0;
      if x < 0.0 { x := 0.0; }
      if x > 1.0 { x := 1.0; }
      mix := x;
    }

    /** delay_process */
    method Process(input: real) returns (out: real)
      requires State().Ready()
      modifies this`writePos, buffer
      ensures State() == old(State()).Processed(input)
      ensures out == old(State()).Output(input)
    {
      var delaySamples := Trunc(time * SampleRate);
      if delaySamples >= DelayBufferSize {
        delaySamples := DelayBufferSize - 1;
      }
      var readPos := writePos - delaySamples;
      if readPos < 0 {
        readPos := readPos + DelayBufferSize;
      }
      ghost var o := old(State());
      assert readPos == ReadPos(o.writePos, DelaySamples(o.time));
      var delayed := buffer[readPos];
      assert delayed == o.Delayed();
      var output := input + delayed * feedback;
      assert output == Feedback(input, o.Delayed(), o.feedback);
      buffer[writePos] := output;
      writePos := (writePos + 1) % DelayBufferSize;
      out := Blend(input, delayed, mix);
      ProcessedWrites(o, input, output);
      assert State() == o.(buffer := o.buffer[o.writePos := output], writePos := writePos);
    }
  }

  /** The Reverb struct. Its comb and all-pass filters are embedded in it
      by value, so they are held here as values that reverb_process
      replaces one filter at a time. */
  class Reverb {
    var combs: seq<Ring>
    var allpasses: seq<Ring>
    var mix: real
    var roomsize: real

    ghost function State(): ReverbState
      reads this
    {
      ReverbState(combs, allpasses, mix, roomsize)
    }

    ghost predicate Valid()
      reads this
    {
      State().Ready()
    }

    /** reverb_init */
    constructor ()
      ensures Valid() && State() == InitialEffects().reverb
    {
      var cs := [];
      for i := 0 to 4
        invariant cs == seq(i, k requires 0 <= k < i => CombInit(CombTunings[k], 0.84))
      {
        cs := cs + [CombInit(CombTunings[i], 0.84)];
      }
      var aps := [];
      for i := 0 to 2
        invariant aps == seq(i, k requires 0 <= k < i => AllpassInit(AllpassTunings[k], 0.5))
      {
        aps := aps + [AllpassInit(AllpassTunings[i], 0.5)];
      }
      combs := cs;
      allpasses := aps;
      mix := 0.2;
      roomsize := 0.5;
    }

    /** reverb_set_roomsize */
    method SetRoomsize(size: real)
      requires Valid()
      modifies this
      ensures State() == old(State()).Resized(size)
      ensures Valid()
    {
      var x := size;
      if x < 0.0 { x := 0.0; }
      if x > 1.0 { x := 1.0; }
      roomsize := x;
      var fb := 0.7 + x * 0.28;
      for i := 0 to 4
        invariant |combs| == 4
        invariant forall k :: 0 <= k < i ==> combs[k] == old(combs[k]).(feedback := fb)
        invariant forall k :: i <= k < 4 ==> combs[k] == old(combs[k])
        invariant allpasses == old(allpasses) && mix == old(mix) && roomsize == x
      {
        combs := combs[i := combs[i].(feedback := fb)];
      }
      assert combs == Retuned(old(combs), RoomFeedback(x));
    }

    /** reverb_set_mix: clamped to [0,1]. */
    method SetMix(m: real)
      modifies this`mix
      ensures State() == old(State()).(mix := Clamp(m, 0.0, 1.0))
    {
      var x := m;
      if x < 0.0 { x := 0.0; }
      if x > 1.0 { x := 1.0; }
      mix := x;
    }

    /** reverb_process: the four combs in parallel, their mean through the
        two all-passes in series, blended with the input. */
    method Process(input: real) returns (out: real)
      requires Valid()
      modifies this`combs, this`allpasses
      ensures State() == old(State()).Processed(input)
      ensures out == old(State()).Output(input)
      ensures Valid()
    {
      ghost var o := State();
      var combSum := 0.0;
      for i := 0 to 4
        invariant |combs| == 4 && allpasses == o.allpasses
        invariant combs == FedAll(o.combs, input, i)
        invariant combSum == CombSum(o.combs, i)
      {
        combSum := combSum + combs[i].CombOutput();
        combs := combs[i := combs[i].Fed(input)];
      }
      combSum := combSum / 4.0;
      var output := combSum;
      for i := 0 to 2
        invariant |allpasses| == 2 && combs == FedAll(o.combs, input, 4)
        invariant i == 0 ==> output == o.CombMean() && allpasses == o.allpasses
        invariant i == 1 ==> output == o.FirstAllpass() && allpasses == [o.allpasses[0].Fed(o.CombMean()), o.allpasses[1]]
        invariant i == 2 ==> output == o.Wet() && allpasses == o.Processed(input).allpasses
      {
        var y := allpasses[i].AllpassOutput(output);
        allpasses := allpasses[i := allpasses[i].Fed(output)];
        output := y;
      }
      out := Blend(input, output, mix);
    }
  }

  /** The Distortion struct. */
  class Distortion {
    var drive: real
    var mix: real

    ghost function State(): DistortionState
      reads this
    {
      DistortionState(drive, mix)
    }

    /** distortion_init: drive 1, mix 0 (the effect is off). */
    constructor ()
      ensures State() == InitialEffects().distortion
    {
      drive := 1.0;
      mix := 0.0;
    }

    /** distortion_set_drive: clamped to [1, 10]. */
    method SetDrive(x0: real)
      modifies this`drive
      ensures State() == old(State()).(drive := Clamp(x0, 1.0, 10.0))
    {
      var x := x0;
      if x < 1.0 { x := 1.0; }
      if x > 10.0 { x := 10.0; }
      drive := x;
    }

    /** distortion_set_mix: clamped to [0, 1]. */
    method SetMix(x0: real)
      modifies this`mix
      ensures State() == old(State()).(mix := Clamp(x0, 0.0, 1.0))
    {
      var x := x0;
      if x < 0.0 { x := 0.0; }
      if x > 1.0 { x := 1.0; }
      mix := x;
    }

    /** distortion_process: it keeps no state of its own. */
    method Process(m: Libm, input: real) returns (out: real)
      requires m.tanh(drive) != 0.0
      ensures out == State().Output(m, input)
    {
      var driven := input * drive;
      assert driven == State().Driven(input);
      var distorted := m.tanh(driven);
      distorted := distorted / m.tanh(drive);
      assert distorted == State().Shaped(m, input);
      out := Blend(input, distorted, mix);
    }
  }

  /** The Effects struct: the three effects, each owned by the chain. */
  class Effects {
    const delay: Delay
    const reverb: Reverb
    const distortion: Distortion

    ghost function State(): EffectsState
      reads this, delay, delay.buffer, reverb, distortion
    {
      EffectsState(delay.State(), reverb.State(), distortion.State())
    }

    /** effects_init */
    constructor ()
      ensures State() == InitialEffects()
      ensures fresh(delay) && fresh(delay.buffer) && fresh(reverb) && fresh(distortion)
    {
      delay := new Delay();
      reverb := new Reverb();
      distortion := new Distortion();
    }

    /** effects_process: distortion, then delay, then reverb. */
    method Process(m: Libm, input: real) returns (out: real)
      requires State().Ready(m)
      modifies delay`writePos, delay.buffer, reverb`combs, reverb`allpasses
      ensures State() == old(State()).Processed(m, input)
      ensures out == old(State()).Output(m, input)
    {
      var signal := distortion.Process(m, input);
      signal := delay.Process(signal);
      signal := reverb.Process(signal);
      out := signal;
    }
  }
}
