/** The arpeggiator of src/arp.c: a buffer of at most sixteen held notes,
    kept without duplicates and, except in the as-played pattern, sorted
    by an in-place bubble sort; a step/octave/direction state machine per
    pattern; and a phase clock that turns elapsed time into note-on and
    note-off events. */
module Arpeggiators {
  import opened Numeric
  import opened Wrappers

  /** ARP_MAX_NOTES */
  const MaxNotes: int := 16

  /** 2^31: the int fields hold C ints, in [-2^31, 2^31). */
  const I32Bound: int := 0x8000_0000

  /** ArpPattern; a code outside the enumeration (a preset can store any
      int) is kept as Unrecognised and makes advance_step do nothing. */
  datatype Pattern = Up | Down | UpDown | Random | AsPlayed | Unrecognised(code: int)

  /** The pattern an int code stands for. */
  function PatternOf(code: int): (p: Pattern)
    ensures p.Unrecognised? <==> !(0 <= code <= 4)
  {
    if code == 0 then Up
    else if code == 1 then Down
    else if code == 2 then UpDown
    else if code == 3 then Random
    else if code == 4 then AsPlayed
    else Unrecognised(code)
  }

  /** One held note: notes[i] and velocities[i] of the source, which every
      write of arp.c moves together. */
  datatype Held = Held(note: int, velocity: int)

  /** The settings fields; the preset loader writes each of them unchecked. */
  datatype ArpSettings = ArpSettings(enabled: int, pattern: Pattern, division: int,
                                     tempo: real, octaves: int, gate: real)

  /** The fields advance_step reads and writes: the step into the buffer,
      the octave, the up-down direction and the seed of arp_random. */
  datatype Cursor = Cursor(step: int, octave: int, direction: int, seed: bv32)

  /** The playback fields. */
  datatype Playback = Playback(cursor: Cursor, phase: real, lastNote: int, noteOn: bool)

  /** What arp_process reports: 0 (no event), 1 (note on, with its note and
      velocity) or -1 (note off, with velocity 0). */
  datatype ArpEvent = NoEvent | NoteOnEvent(note: int, velocity: int) | NoteOffEvent(note: int)
  {
    function Code(): int
    {
      match this
      case NoEvent => 0
      case NoteOnEvent(_, _) => 1
      case NoteOffEvent(_) => -1
    }

    /** The velocity written back with an event: 0 for a note off. */
    function Velocity(): int
      requires !NoEvent?
    {
      if NoteOnEvent? then velocity else 0
    }
  }

  /** The notes held, in buffer order, have pairwise distinct pitches. */
  ghost predicate Distinct(h: seq<Held>)
  {
    forall i, j :: 0 <= i < j < |h| ==> h[i].note != h[j].note
  }

  /** The notes held are in ascending order of pitch. */
  ghost predicate Ascending(h: seq<Held>)
  {
    forall i, j :: 0 <= i < j < |h| ==> h[i].note <= h[j].note
  }

  /** The first buffer index holding a pitch, if any. */
  function IndexOf(h: seq<Held>, note: int): (r: Option<nat>)
    ensures r.None? <==> forall i :: 0 <= i < |h| ==> h[i].note != note
    ensures r.Some? ==> r.value < |h| && h[r.value].note == note &&
                        forall i :: 0 <= i < r.value ==> h[i].note != note
  {
    if |h| == 0 then None
    else if h[0].note == note then Some(0)
    else match IndexOf(h[1..], note)
         case None => None
         case Some(k) => Some(k + 1)
  }

  // ---------------------------------------------------------------------
  // sort_notes, as the sequence of swaps its two loops perform

  /** One step of the inner loop at index j: the pairs at j and j+1 swap
      when the first has the higher pitch. */
  function SwapIfGreater(h: seq<Held>, j: nat): (r: seq<Held>)
    requires j + 1 < |h|
    ensures |r| == |h|
  {
    if h[j].note > h[j + 1].note then h[j := h[j + 1]][j + 1 := h[j]] else h
  }

  /** The inner loop run for j = 0 .. k-1. */
  function InnerPass(h: seq<Held>, k: nat): (r: seq<Held>)
    requires k == 0 || k < |h|
    ensures |r| == |h|
  {
    if k == 0 then h else SwapIfGreater(InnerPass(h, k - 1), k - 1)
  }

  /** The outer loop run for i = 0 .. n-1: pass i runs the inner loop up
      to |h| - i - 1. */
  function Passes(h: seq<Held>, n: nat): (r: seq<Held>)
    requires n == 0 || n < |h|
    ensures |r| == |h|
  {
    if n == 0 then h else InnerPass(Passes(h, n - 1), |h| - n)
  }

  /** sort_notes: |h| - 1 passes (none for an empty buffer). */
  function BubbleSorted(h: seq<Held>): (r: seq<Held>)
    ensures |r| == |h|
  {
    if |h| == 0 then h else Passes(h, |h| - 1)
  }

  /** The same pairs, each as often, in any order. */
  ghost predicate SamePairs(a: seq<Held>, b: seq<Held>)
  {
    multiset(a) == multiset(b)
  }

  /** One inner-loop step exchanges two pairs and loses none. */
  lemma SwapPermutes(h: seq<Held>, j: nat)
    requires j + 1 < |h|
    ensures SamePairs(SwapIfGreater(h, j), h)
  {
    if h[j].note > h[j + 1].note {
      var front, back := h[..j], h[j + 2..];
      assert h == front + [h[j], h[j + 1]] + back;
      assert SwapIfGreater(h, j) == front + [h[j + 1], h[j]] + back;
      assert multiset([h[j], h[j + 1]]) == multiset([h[j + 1], h[j]]);
    }
  }

  lemma SamePairsTransitive(a: seq<Held>, b: seq<Held>, c: seq<Held>)
    requires SamePairs(a, b) && SamePairs(b, c)
    ensures SamePairs(a, c)
  {
  }

  lemma InnerStepPermutes(h: seq<Held>, k: nat)
    requires 0 < k < |h|
    ensures SamePairs(InnerPass(h, k), InnerPass(h, k - 1))
  {
    SwapPermutes(InnerPass(h, k - 1), k - 1);
  }

  lemma OuterStepPermutes(h: seq<Held>, n: nat)
    requires 0 < n < |h|
    ensures SamePairs(Passes(h, n), Passes(h, n - 1))
  {
    InnerPassPermutes(Passes(h, n - 1), |h| - n);
  }

  lemma {:induction false} InnerPassPermutes(h: seq<Held>, k: nat)
    requires k == 0 || k < |h|
    ensures SamePairs(InnerPass(h, k), h)
  {
    if k == 0 {
      assert InnerPass(h, 0) == h;
    } else {
      InnerPassPermutes(h, k - 1);
      InnerStepPermutes(h, k);
      SamePairsTransitive(InnerPass(h, k), InnerPass(h, k - 1), h);
    }
  }

  lemma {:induction false} PassesPermute(h: seq<Held>, n: nat)
    requires n == 0 || n < |h|
    ensures SamePairs(Passes(h, n), h)
  {
    if n == 0 {
      assert Passes(h, 0) == h;
    } else {
      PassesPermute(h, n - 1);
      OuterStepPermutes(h, n);
      SamePairsTransitive(Passes(h, n), Passes(h, n - 1), h);
    }
  }

  /** The pairs after sort_notes are the pairs before, each note still
      with its own velocity. */
  lemma BubbleSortedPermutes(h: seq<Held>)
    ensures multiset(BubbleSorted(h)) == multiset(h)
  {
    if |h| > 0 {
      PassesPermute(h, |h| - 1);
    }
  }

  lemma SwapKeepsDistinct(h: seq<Held>, j: nat)
    requires j + 1 < |h| && Distinct(h)
    ensures Distinct(SwapIfGreater(h, j))
  {
    var r := SwapIfGreater(h, j);
    forall a, b | 0 <= a < b < |r|
      ensures r[a].note != r[b].note
    {
      var a' := if r == h then a else if a == j then j + 1 else if a == j + 1 then j else a;
      var b' := if r == h then b else if b == j then j + 1 else if b == j + 1 then j else b;
      assert r[a] == h[a'] && r[b] == h[b'] && a' != b';
    }
  }

  lemma {:induction false} InnerPassKeepsDistinct(h: seq<Held>, k: nat)
    requires (k == 0 || k < |h|) && Distinct(h)
    ensures Distinct(InnerPass(h, k))
  {
    if k > 0 {
      InnerPassKeepsDistinct(h, k - 1);
      SwapKeepsDistinct(InnerPass(h, k - 1), k - 1);
    }
  }

  lemma {:induction false} PassesKeepDistinct(h: seq<Held>, n: nat)
    requires (n == 0 || n < |h|) && Distinct(h)
    ensures Distinct(Passes(h, n))
  {
    if n > 0 {
      PassesKeepDistinct(h, n - 1);
      InnerPassKeepsDistinct(Passes(h, n - 1), |h| - n);
    }
  }

  /** Sorting never puts two copies of a pitch into the buffer. */
  lemma BubbleSortedDistinct(h: seq<Held>)
    requires Distinct(h)
    ensures Distinct(BubbleSorted(h))
  {
    if |h| > 0 {
      PassesKeepDistinct(h, |h| - 1);
    }
  }

  /** After the inner loop up to k, the pair at k has the highest pitch of
      positions 0..k, and nothing past k has moved. */
  lemma {:induction false} InnerPassRaisesMax(h: seq<Held>, k: nat)
    requires k < |h|
    ensures forall a :: 0 <= a <= k ==> InnerPass(h, k)[a].note <= InnerPass(h, k)[k].note
    ensures InnerPass(h, k)[k + 1..] == h[k + 1..]
  {
    if k > 0 {
      InnerPassRaisesMax(h, k - 1);
      var t := InnerPass(h, k - 1);
      assert t[k..] == h[k..];
      assert t[k] == h[k];
    }
  }

  /** The inner loop up to k only rearranges positions 0..k, so a bound on
      the pitches there still holds after it. */
  lemma {:induction false} InnerPassKeepsBound(h: seq<Held>, k: nat, x: int)
    requires k < |h|
    requires forall a :: 0 <= a <= k ==> h[a].note <= x
    ensures forall a :: 0 <= a <= k ==> InnerPass(h, k)[a].note <= x
  {
    if k > 0 {
      InnerPassKeepsBound(h, k - 1, x);
      InnerPassRaisesMax(h, k - 1);
      assert InnerPass(h, k - 1)[k] == h[k];
    }
  }

  /** After n passes the last n pairs are in ascending order and no pair
      before them has a higher pitch than any of them. */
  lemma {:induction false} PassesSortSuffix(h: seq<Held>, n: nat)
    requires n == 0 || n < |h|
    ensures forall a, b :: |h| - n <= a < b < |h| ==> Passes(h, n)[a].note <= Passes(h, n)[b].note
    ensures forall a, b :: 0 <= a < |h| - n <= b < |h| ==> Passes(h, n)[a].note <= Passes(h, n)[b].note
  {
    if n > 0 {
      PassesSortSuffix(h, n - 1);
      var t := Passes(h, n - 1);
      var k := |h| - n;
      var u := InnerPass(t, k);
      InnerPassRaisesMax(t, k);
      assert forall b :: k < b < |h| ==> u[b] == t[b] by {
        assert u[k + 1..] == t[k + 1..];
      }
      forall b | k < b < |h|
        ensures forall a :: 0 <= a <= k ==> u[a].note <= u[b].note
      {
        InnerPassKeepsBound(t, k, t[b].note);
      }
    }
  }

  /** After sort_notes the buffer is in ascending order of pitch. */
  lemma BubbleSortedAscending(h: seq<Held>)
    ensures Ascending(BubbleSorted(h))
  {
    if |h| > 0 {
      PassesSortSuffix(h, |h| - 1);
    }
  }

  // ---------------------------------------------------------------------
  // The state of the arpeggiator as a value, and its operations

  /** The fields of an Arpeggiator; held is notes/velocities[0 .. note_count). */
  datatype ArpState = ArpState(settings: ArpSettings, held: seq<Held>, play: Playback)
  {
    /** At most sixteen notes, pairwise distinct, and octaves small enough
        that advance_step's int total_steps = note_count * octaves fits a
        C int for every note count the buffer can hold. */
    ghost predicate Ready()
    {
      |held| <= MaxNotes && Distinct(held) &&
      -I32Bound <= MaxNotes * settings.octaves < I32Bound
    }

    /** arp_process indexes division_mult with the division whenever the
        arpeggiator is enabled and holds a note. */
    predicate Steppable()
    {
      settings.enabled != 0 && |held| > 0 ==> 0 <= settings.division < 4
    }

    /** arp_note_on: a held pitch only gets the new velocity; a new one is
        appended while there is room and, unless the pattern is
        as-played, the buffer is sorted again; a full buffer ignores it. */
    function NotedOn(note: int, velocity: int): ArpState
    {
      match IndexOf(held, note)
      case Some(i) => this.(held := held[i := held[i].(velocity := velocity)])
      case None =>
        if |held| < MaxNotes then
          var appended := held + [Held(note, velocity)];
          this.(held := if settings.pattern != AsPlayed then BubbleSorted(appended) else appended)
        else this
    }

    /** arp_note_off: the first pair with the pitch is removed and the rest
        close up; the step and octave go back to 0 when the step is past
        the new end of a non-empty buffer. An absent pitch changes nothing. */
    function NotedOff(note: int): ArpState
    {
      match IndexOf(held, note)
      case None => this
      case Some(i) =>
        var h := held[..i] + held[i + 1..];
        this.(held := h,
              play := if play.cursor.step >= |h| && |h| > 0
                      then play.(cursor := play.cursor.(step := 0, octave := 0))
                      else play)
    }

    /** arp_clear: no notes, and the playback back to its start; the
        settings and the random seed stay. */
    function Cleared(): ArpState
    {
      this.(held := [], play := Playback(play.cursor.(step := 0, octave := 0, direction := 1), 0.0, -1, false))
    }

    /** advance_step */
    function Advanced(): ArpState
      requires Ready()
    {
      this.(play := play.(cursor := AdvancedStep(play.cursor, settings.pattern, |held|, settings.octaves)))
    }

    /** arp_process for delta_time seconds. A disabled or empty arpeggiator
        only silences a sounding note. Otherwise the phase advances by
        delta_time in steps; a note that sounds and whose gate the phase
        crosses is turned off, and that call ends there. Else a phase of 1
        or more wraps by one, the step advances, is clamped into the
        buffer, and its note, raised by twelve per octave, is played. */
    function Processed(delta: real): (r: ArpStep)
      requires Ready() && Steppable()
    {
      if settings.enabled == 0 || |held| == 0 then
        if play.noteOn && play.lastNote >= 0 then
          ArpStep(this.(play := play.(noteOn := false, lastNote := -1)), NoteOffEvent(play.lastNote))
        else ArpStep(this, NoEvent)
      else
        var ph := play.phase + PhaseIncrement(delta, settings.tempo, settings.division);
        if play.noteOn && play.phase < settings.gate && ph >= settings.gate then
          ArpStep(this.(play := play.(phase := ph, noteOn := false)), NoteOffEvent(play.lastNote))
        else if ph >= 1.0 then NextNote(ph - 1.0)
        else ArpStep(this.(play := play.(phase := ph)), NoEvent)
    }

    /** The step boundary of arp_process, with the phase already wrapped to
        ph: the step advances, is clamped into the buffer, and the note
        there, twelve semitones up per octave, starts. */
    function NextNote(ph: real): ArpStep
      requires Ready() && |held| > 0
    {
      var c := AdvancedStep(play.cursor, settings.pattern, |held|, settings.octaves);
      var st := ClampStep(c.step, |held|);
      var n := held[st].note + c.octave * 12;
      ArpStep(this.(play := Playback(c.(step := st), ph, n, true)), NoteOnEvent(n, held[st].velocity))
    }
  }

  /** The new state and the event of one arp_process call. */
  datatype ArpStep = ArpStep(next: ArpState, event: ArpEvent)

  /** arp_init: disabled, Up, eighth notes, 120 BPM, one octave, gate 0.5,
      no notes, step 0 going up, no note sounding, seed 12345. */
  const InitialArp: ArpState :=
    ArpState(ArpSettings(0, Up, 1, 120.0, 1, 0.5), [], Playback(Cursor(0, 0, 1, 12345), 0.0, -1, false))

  /** division_mult: steps per beat for 1/4, 1/8, 1/16 and 1/32. */
  function DivisionMult(division: int): real
    requires 0 <= division < 4
  {
    [1.0, 2.0, 4.0, 8.0][division]
  }

  /** How far the phase moves in delta seconds: delta divided by the step
      duration 1/(tempo/60 · division_mult), that is delta times the steps
      per second. (At tempo 0 the float step duration is infinite and the
      phase does not move, which the product also gives.) */
  function PhaseIncrement(delta: real, tempo: real, division: int): real
    requires 0 <= division < 4
  {
    delta * (tempo / 60.0 * DivisionMult(division))
  }

  /** The clamp arp_process applies to the step before reading the buffer. */
  function ClampStep(step: int, count: int): (r: int)
    requires count > 0
    ensures 0 <= r < count
    ensures 0 <= step < count ==> r == step
  {
    if step < 0 then 0 else if step >= count then count - 1 else step
  }

  /** The new seed and the value of one arp_random call. */
  datatype Draw = Draw(seed: bv32, value: int)

  /** C's conversion of an unsigned value below 2^32 to int. */
  function ToInt32(u: int): int
    requires 0 <= u < U32Modulus
  {
    if u < I32Bound then u else u - U32Modulus
  }

  /** arp_random: one xorshift32 step of the seed, then the seed modulo max,
      where the int max is converted to unsigned (so a negative max is
      taken modulo 2^32) and the result back to int. */
  function ArpRandom(seed: bv32, max: int): (d: Draw)
    requires -I32Bound <= max < I32Bound && max != 0
  {
    var s := Xorshift32(seed);
    Draw(s, ToInt32((s as int) % (max % U32Modulus)))
  }

  /** For a positive max, arp_random draws a value in [0, max) and steps the
      seed as xorshift32 does. */
  lemma ArpRandomInRange(seed: bv32, max: int)
    requires 0 < max < I32Bound
    ensures 0 <= ArpRandom(seed, max).value < max
    ensures ArpRandom(seed, max).seed == Xorshift32(seed)
  {
    var s := Xorshift32(seed) as int;
    assert max % U32Modulus == max;
    assert 0 <= s % max < max;
  }

  /** advance_step, for a buffer of count notes and the given pattern and
      octaves. Nothing moves when count · octaves is 0. */
  function AdvancedStep(p: Cursor, pattern: Pattern, count: int, octaves: int): Cursor
    requires 0 <= count <= MaxNotes && -I32Bound <= octaves < I32Bound
  {
    if count == 0 || octaves == 0 then p
    else match pattern
      case Up => StepUp(p, count, octaves)
      case AsPlayed => StepUp(p, count, octaves)
      case Down =>
        if p.step - 1 < 0 then
          p.(step := count - 1, octave := if p.octave - 1 < 0 then octaves - 1 else p.octave - 1)
        else p.(step := p.step - 1)
      case UpDown =>
        var st := p.step + p.direction;
        if p.direction > 0 then
          if st >= count then
            if p.octave + 1 >= octaves then
              p.(octave := octaves - 1, step := if count - 2 < 0 then 0 else count - 2, direction := -1)
            else p.(step := 0, octave := p.octave + 1)
          else p.(step := st)
        else
          if st < 0 then
            if p.octave - 1 < 0 then
              p.(octave := 0, step := if 1 >= count then 0 else 1, direction := 1)
            else p.(step := count - 1, octave := p.octave - 1)
          else p.(step := st)
      case Random =>
        var d1 := ArpRandom(p.seed, count);
        var d2 := ArpRandom(d1.seed, octaves);
        p.(step := d1.value, octave := d2.value, seed := d2.seed)
      case Unrecognised(_) => p
  }

  /** advance_step's total_steps, note_count · octaves, is 0 exactly when
      one of the factors is. */
  lemma TotalStepsZero(count: int, octaves: int)
    ensures count * octaves == 0 <==> count == 0 || octaves == 0
  {

  }

  /** With octaves bounded as Ready bounds them, total_steps is a C int
      for every note count up to sixteen, so the product TotalStepsZero
      speaks of is the one advance_step computes. */
  lemma TotalStepsFit(count: int, octaves: int)
    requires 0 <= count <= MaxNotes && -I32Bound <= MaxNotes * octaves < I32Bound
    ensures -I32Bound <= count * octaves < I32Bound
    ensures -I32Bound <= octaves < I32Bound
  {
  }

  /** The Up and As-played step: the next note, and past the last one the
      first note an octave higher, back to the base octave after the top. */
  function StepUp(p: Cursor, count: int, octaves: int): Cursor
  {
    if p.step + 1 >= count then
      p.(step := 0, octave := if p.octave + 1 >= octaves then 0 else p.octave + 1)
    else p.(step := p.step + 1)
  }

  // ---------------------------------------------------------------------
  // Properties

  /** arp_init gives a ready, silent arpeggiator: processing it emits
      nothing and changes nothing. */
  lemma InitialArpSilent(delta: real)
    ensures InitialArp.Ready() && InitialArp.Steppable()
    ensures InitialArp.Processed(delta) == ArpStep(InitialArp, NoEvent)
  {
  }

  /** arp_note_on. A held pitch: only its velocity changes, the count and
      order stay. A new pitch with room: one more note, the pair is in the
      buffer, the pairs are the old ones plus the new one, ascending unless
      the pattern is as-played, in which case the new pair is last. A full
      buffer: nothing changes. The buffer stays ready and nothing but it
      changes. */
  lemma NoteOnEffect(s: ArpState, note: int, velocity: int)
    requires s.Ready()
    ensures var r := s.NotedOn(note, velocity);
      r.Ready() && r.settings == s.settings && r.play == s.play
    ensures var r := s.NotedOn(note, velocity);
      IndexOf(s.held, note).Some? ==>
        |r.held| == |s.held| &&
        forall i :: 0 <= i < |s.held| ==>
          r.held[i] == if s.held[i].note == note then Held(note, velocity) else s.held[i]
    ensures var r := s.NotedOn(note, velocity);
      IndexOf(s.held, note).None? && |s.held| < MaxNotes ==>
        |r.held| == |s.held| + 1 &&
        multiset(r.held) == multiset(s.held) + multiset{Held(note, velocity)} &&
        (s.settings.pattern != AsPlayed ==> Ascending(r.held)) &&
        (s.settings.pattern == AsPlayed ==> r.held == s.held + [Held(note, velocity)])
    ensures IndexOf(s.held, note).None? && |s.held| == MaxNotes ==> s.NotedOn(note, velocity) == s
  {
    match IndexOf(s.held, note)
    case Some(i) =>
      var r := s.NotedOn(note, velocity);
      forall a, b | 0 <= a < b < |r.held|
        ensures r.held[a].note != r.held[b].note
      {
        assert r.held[a].note == s.held[a].note && r.held[b].note == s.held[b].note;
      }
    case None =>
      if |s.held| < MaxNotes {
        var appended := s.held + [Held(note, velocity)];
        assert Distinct(appended);
        BubbleSortedPermutes(appended);
        BubbleSortedDistinct(appended);
        BubbleSortedAscending(appended);
      }
  }

  /** A position holding the pitch with none before it is the one IndexOf
      finds. */
  lemma FirstMatch(h: seq<Held>, note: int, i: nat)
    requires i < |h| && h[i].note == note
    requires forall k :: 0 <= k < i ==> h[k].note != note
    ensures IndexOf(h, note) == Some(i)
  {
  }

  /** Removing position i closes the gap and keeps the order and the
      distinctness of the rest. */
  lemma RemoveKeepsDistinct(h: seq<Held>, i: nat)
    requires i < |h| && Distinct(h)
    ensures Distinct(h[..i] + h[i + 1..])
  {
    var r := h[..i] + h[i + 1..];
    forall a, b | 0 <= a < b < |r|
      ensures r[a].note != r[b].note
    {
      var a' := if a < i then a else a + 1;
      var b' := if b < i then b else b + 1;
      assert r[a] == h[a'] && r[b] == h[b'];
    }
  }

  /** arp_note_off keeps the buffer ready and the settings as they were,
      and an absent pitch changes nothing at all. */
  lemma NoteOffKeepsReady(s: ArpState, note: int)
    requires s.Ready()
    ensures s.NotedOff(note).Ready() && s.NotedOff(note).settings == s.settings
    ensures IndexOf(s.held, note).None? ==> s.NotedOff(note) == s
  {
    if IndexOf(s.held, note).Some? {
      RemoveKeepsDistinct(s.held, IndexOf(s.held, note).value);
    }
  }

  /** arp_note_off of a held pitch: its pair is gone and no pair with that
      pitch is left, the pairs before it stay and the ones after it move
      down by one, the count drops by one, and a step past the new end of
      a non-empty buffer returns to step 0, octave 0; the rest of the
      playback is as it was. */
  lemma NoteOffEffect(s: ArpState, note: int)
    requires s.Ready()
    ensures IndexOf(s.held, note).Some? ==>
      var i := IndexOf(s.held, note).value;
      var r := s.NotedOff(note);
      |r.held| == |s.held| - 1 &&
      (forall k :: 0 <= k < i ==> r.held[k] == s.held[k]) &&
      (forall k :: i <= k < |r.held| ==> r.held[k] == s.held[k + 1]) &&
      (forall k :: 0 <= k < |r.held| ==> r.held[k].note != note) &&
      (s.play.cursor.step >= |r.held| > 0 ==> r.play.cursor == s.play.cursor.(step := 0, octave := 0)) &&
      (!(s.play.cursor.step >= |r.held| > 0) ==> r.play.cursor == s.play.cursor) &&
      r.play.(cursor := s.play.cursor) == s.play
  {
    match IndexOf(s.held, note)
    case None =>
    case Some(i) =>
      var h := s.held[..i] + s.held[i + 1..];
      assert forall k :: 0 <= k < i ==> h[k] == s.held[k];
      assert forall k :: i <= k < |h| ==> h[k] == s.held[k + 1];
      assert forall k :: i <= k < |h| ==> h[k].note != s.held[i].note;
  }

  /** arp_clear empties the buffer, and a cleared arpeggiator then stays
      silent: processing it emits nothing and changes nothing. */
  lemma ClearedSilent(s: ArpState, delta: real)
    requires s.Ready()
    ensures s.Cleared().Ready() && s.Cleared().held == [] && !s.Cleared().play.noteOn
    ensures s.Cleared().Processed(delta) == ArpStep(s.Cleared(), NoEvent)
  {
  }

  /** advance_step keeps the step inside the buffer and the octave inside
      [0, octaves) for every pattern, and Up, As-played and Down never
      touch the direction or the seed. */
  lemma AdvanceKeepsRange(p: Cursor, pattern: Pattern, count: int, octaves: int)
    requires 0 < count <= MaxNotes && 0 < octaves < I32Bound
    requires 0 <= p.step < count && 0 <= p.octave < octaves
    ensures var q := AdvancedStep(p, pattern, count, octaves);
      0 <= q.step < count && 0 <= q.octave < octaves
    ensures pattern.Up? || pattern.AsPlayed? || pattern.Down? ==>
      var q := AdvancedStep(p, pattern, count, octaves);
      q.direction == p.direction && q.seed == p.seed
  {
    if pattern.Random? {
      ArpRandomInRange(p.seed, count);
      ArpRandomInRange(ArpRandom(p.seed, count).seed, octaves);
    }
  }

  /** Up-down with at least two notes and the direction 1 or -1 never
      plays the same step and octave twice in a row: at either end it
      turns round onto the neighbouring note. */
  lemma UpDownNeverRepeats(p: Cursor, count: int, octaves: int)
    requires 2 <= count <= MaxNotes && 0 < octaves < I32Bound
    requires 0 <= p.step < count && 0 <= p.octave < octaves
    requires p.direction == 1 || p.direction == -1
    ensures var q := AdvancedStep(p, UpDown, count, octaves);
      (q.step, q.octave) != (p.step, p.octave) && (q.direction == 1 || q.direction == -1)
  {
  }

  /** n calls of advance_step. */
  function AdvancedTimes(p: Cursor, pattern: Pattern, count: int, octaves: int, n: nat): Cursor
    requires 0 <= count <= MaxNotes && -I32Bound <= octaves < I32Bound
    decreases n
  {
    if n == 0 then p else AdvancedTimes(AdvancedStep(p, pattern, count, octaves), pattern, count, octaves, n - 1)
  }

  /** Up-down over three notes in one octave, from step 0 going up, visits
      steps 1, 2, 1, 0, 1, 2: the end notes are played once per turn. */
  lemma UpDownThreeNotes(p: Cursor)
    requires p.step == 0 && p.octave == 0 && p.direction == 1
    ensures AdvancedTimes(p, UpDown, 3, 1, 1).step == 1
    ensures AdvancedTimes(p, UpDown, 3, 1, 2).step == 2
    ensures AdvancedTimes(p, UpDown, 3, 1, 3).step == 1
    ensures AdvancedTimes(p, UpDown, 3, 1, 4).step == 0
    ensures AdvancedTimes(p, UpDown, 3, 1, 5).step == 1
    ensures AdvancedTimes(p, UpDown, 3, 1, 6).step == 2
  {
  }

  /** A disabled or empty arpeggiator: when a note sounds it is turned off
      (event -1, velocity 0) and forgotten; otherwise nothing happens and
      nothing changes, not even the phase. */
  lemma ProcessIdle(s: ArpState, delta: real)
    requires s.Ready() && s.Steppable() && (s.settings.enabled == 0 || |s.held| == 0)
    ensures var r := s.Processed(delta);
      if s.play.noteOn && s.play.lastNote >= 0 then
        r.event == NoteOffEvent(s.play.lastNote) && r.event.Code() == -1 && r.event.Velocity() == 0 &&
        r.next == s.(play := s.play.(noteOn := false, lastNote := -1))
      else r.event.Code() == 0 && r.next == s
  {
  }

  /** A sounding note whose gate the phase crosses in this call is turned
      off, and the call ends there: the phase is not wrapped even when it
      also reached 1, the step does not advance and no note starts. */
  lemma GateOffPreempts(s: ArpState, delta: real)
    requires s.Ready() && s.Steppable() && s.settings.enabled != 0 && |s.held| > 0
    requires s.play.noteOn
    requires s.play.phase < s.settings.gate <= s.play.phase + PhaseIncrement(delta, s.settings.tempo, s.settings.division)
    ensures var r := s.Processed(delta);
      r.event == NoteOffEvent(s.play.lastNote) &&
      r.next == s.(play := s.play.(phase := s.play.phase + PhaseIncrement(delta, s.settings.tempo, s.settings.division),
                                   noteOn := false))
  {
  }

  /** When the phase reaches 1 without a gate crossing, it drops by exactly
      1, the step advances and is clamped into the buffer, and the note at
      that step, twelve semitones up per octave, starts with its velocity
      and becomes the last note. */
  lemma ProcessWraps(s: ArpState, delta: real)
    requires s.Ready() && s.Steppable() && s.settings.enabled != 0 && |s.held| > 0
    requires !(s.play.noteOn && s.play.phase < s.settings.gate <=
               s.play.phase + PhaseIncrement(delta, s.settings.tempo, s.settings.division))
    requires s.play.phase + PhaseIncrement(delta, s.settings.tempo, s.settings.division) >= 1.0
    ensures var r := s.Processed(delta);
      var q := AdvancedStep(s.play.cursor, s.settings.pattern, |s.held|, s.settings.octaves);
      var st := ClampStep(q.step, |s.held|);
      0 <= st < |s.held| &&
      r.next.play.phase == s.play.phase + PhaseIncrement(delta, s.settings.tempo, s.settings.division) - 1.0 &&
      r.next.play.cursor == q.(step := st) &&
      r.event == NoteOnEvent(s.held[st].note + 12 * q.octave, s.held[st].velocity) &&
      r.next.play.lastNote == r.event.note && r.next.play.noteOn &&
      r.next.held == s.held && r.next.settings == s.settings
  {
  }

  /** Right after arp_init (step 0, octave 0), the first note Up plays is
      the second held note, not the first: the step advances before the
      buffer is read. */
  lemma FirstNoteIsSecondHeld(s: ArpState, delta: real)
    requires s.Ready() && s.Steppable() && s.settings.enabled != 0 && |s.held| >= 2
    requires s.settings.pattern == Up && s.settings.octaves >= 1
    requires s.play == InitialArp.play
    requires PhaseIncrement(delta, s.settings.tempo, s.settings.division) >= 1.0
    ensures s.Processed(delta).event == NoteOnEvent(s.held[1].note, s.held[1].velocity)
  {
  }

  // ---------------------------------------------------------------------
  // The Arpeggiator struct

  /** The Arpeggiator struct, updated in place by the arp_* functions. The
      parallel notes/velocities arrays are one array of pairs. */
  class Arpeggiator {
    var settings: ArpSettings
    const held: array<Held>
    var count: int
    var step: int
    var octave: int
    var direction: int
    var phase: real
    var lastNote: int
    var noteOn: bool
    var seed: bv32

    ghost function State(): ArpState
      reads this, held
      requires 0 <= count <= held.Length
    {
      ArpState(settings, held[..count],
               Playback(Cursor(step, octave, direction, seed), phase, lastNote, noteOn))
    }

    ghost predicate Valid()
      reads this, held
    {
      held.Length == MaxNotes && 0 <= count <= MaxNotes && State().Ready()
    }

    /** arp_init */
    constructor ()
      ensures Valid() && State() == InitialArp
    {
      settings := ArpSettings(0, Up, 1, 120.0, 1, 0.5);
      held := new Held[MaxNotes](_ => Held(0, 0));
      count := 0;
      step, octave, direction, phase := 0, 0, 1, 0.0;
      lastNote, noteOn, seed := -1, false, 12345;
    }

    /** sort_notes: the bubble sort of the first count pairs, in place. */
    method SortNotes()
      requires held.Length == MaxNotes && 0 <= count <= MaxNotes
      modifies held
      ensures held[..count] == BubbleSorted(old(held[..count]))
      ensures held[count..] == old(held[count..])
    {
      ghost var h := held[..count];
      var i := 0;
      while i < count - 1
        invariant 0 <= i && (i == 0 || i < count)
        invariant held[..count] == Passes(h, i)
        invariant held[count..] == old(held[count..])
      {
        ghost var t := held[..count];
        var j := 0;
        while j < count - i - 1
          invariant 0 <= j <= count - i - 1
          invariant held[..count] == InnerPass(t, j)
          invariant held[count..] == old(held[count..])
        {
          if held[j].note > held[j + 1].note {
            var tmp := held[j];
            held[j] := held[j + 1];
            held[j + 1] := tmp;
          }
          j := j + 1;
        }
        i := i + 1;
      }
    }

    /** The search loop arp_note_on and arp_note_off share: the first
        position among the held notes with the pitch. */
    method Find(note: int) returns (r: Option<nat>)
      requires 0 <= count <= held.Length
      ensures r == IndexOf(held[..count], note)
    {
      var i := 0;
      while i < count
        invariant 0 <= i <= count
        invariant forall k :: 0 <= k < i ==> held[k].note != note
      {
        if held[i].note == note {
          FirstMatch(held[..count], note, i);
          return Some(i);
        }
        i := i + 1;
      }
      assert forall k :: 0 <= k < count ==> held[..count][k].note != note;
      return None;
    }

    /** arp_note_on */
    method NoteOn(note: int, velocity: int)
      requires Valid()
      modifies this, held
      ensures 0 <= count <= held.Length
      ensures State() == old(State()).NotedOn(note, velocity)
      ensures Valid()
    {
      ghost var s := State();
      NoteOnEffect(s, note, velocity);
      var found := Find(note);
      if found.Some? {
        var i := found.value;
        held[i] := held[i].(velocity := velocity);
        assert held[..count] == s.held[i := s.held[i].(velocity := velocity)];
      } else if count < MaxNotes {
        held[count] := Held(note, velocity);
        count := count + 1;
        assert held[..count] == s.held + [Held(note, velocity)];
        if settings.pattern != AsPlayed {
          SortNotes();
        }
      }
    }

    /** arp_note_off */
    method NoteOff(note: int)
      requires Valid()
      modifies this, held
      ensures 0 <= count <= held.Length
      ensures State() == old(State()).NotedOff(note)
      ensures Valid()
    {
      ghost var s := State();
      NoteOffKeepsReady(s, note);
      var found := Find(note);
      if found.Some? {
        RemoveAt(found.value);
        if step >= count && count > 0 {
          step := 0;
          octave := 0;
        }
      }
    }

    /** The shift loop of arp_note_off: the pairs after position i move
        down by one and the count drops by one. */
    method RemoveAt(i: int)
      requires held.Length == MaxNotes && 0 <= i < count <= MaxNotes
      modifies this`count, held
      ensures count == old(count) - 1
      ensures held[..count] == old(held[..count])[..i] + old(held[..count])[i + 1..]
    {
      ghost var h := held[..count];
      var j := i;
      while j < count - 1
        invariant i <= j <= count - 1
        invariant forall k :: 0 <= k < i ==> held[k] == h[k]
        invariant forall k :: i <= k < j ==> held[k] == h[k + 1]
        invariant forall k :: j <= k < count ==> held[k] == h[k]
        modifies held
      {
        held[j] := held[j + 1];
        j := j + 1;
      }
      count := count - 1;
      assert held[..count] == h[..i] + h[i + 1..];
    }

    /** arp_clear */
    method Clear()
      requires Valid()
      modifies this
      ensures 0 <= count <= held.Length
      ensures State() == old(State()).Cleared()
      ensures Valid()
    {
      count := 0;
      step, octave, direction, phase := 0, 0, 1, 0.0;
      lastNote, noteOn := -1, false;
    }

    /** arp_random */
    method NextRandom(max: int) returns (r: int)
      requires -I32Bound <= max < I32Bound && max != 0
      modifies this`seed
      ensures Draw(seed, r) == ArpRandom(old(seed), max)
    {
      seed := Xorshift32(seed);
      var u := max % U32Modulus;
      r := ToInt32((seed as int) % u);
    }

    /** advance_step */
    method AdvanceStep()
      requires Valid()
      modifies this`step, this`octave, this`direction, this`seed
      ensures 0 <= count <= held.Length
      ensures State() == old(State()).Advanced()
      ensures Valid()
    {
      TotalStepsFit(count, settings.octaves);
      var totalSteps := count * settings.octaves;
      TotalStepsZero(count, settings.octaves);
      if totalSteps == 0 {
        return;
      }
      match settings.pattern {
        case Up =>
          AdvanceUp();
        case AsPlayed =>
          AdvanceUp();
        case Down =>
          step := step - 1;
          if step < 0 {
            step := count - 1;
            octave := octave - 1;
            if octave < 0 {
              octave := settings.octaves - 1;
            }
          }
        case UpDown =>
          AdvanceUpDown();
        case Random =>
          step := NextRandom(count);
          octave := NextRandom(settings.octaves);
        case Unrecognised(_) =>
      }
    }

    /** The Up and As-played case of advance_step. */
    method AdvanceUp()
      requires Valid() && count * settings.octaves != 0
      modifies this`step, this`octave
      ensures 0 <= count <= held.Length
      ensures State() == old(State()).(play := old(State()).play.(cursor := StepUp(old(State()).play.cursor, count, settings.octaves)))
      ensures Valid()
    {
      step := step + 1;
      if step >= count {
        step := 0;
        octave := octave + 1;
        if octave >= settings.octaves {
          octave := 0;
        }
      }
    }

    /** The Up-down case of advance_step. */
    method AdvanceUpDown()
      requires Valid() && count * settings.octaves != 0
      modifies this`step, this`octave, this`direction
      ensures 0 <= count <= held.Length
      ensures State() == old(State()).(play := old(State()).play.(cursor := AdvancedStep(old(State()).play.cursor, UpDown, count, settings.octaves)))
      ensures Valid()
    {
      step := step + direction;
      if direction > 0 {
        if step >= count {
          octave := octave + 1;
          if octave >= settings.octaves {
            octave := settings.octaves - 1;
            step := count - 2;
            if step < 0 {
              step := 0;
            }
            direction := -1;
          } else {
            step := 0;
          }
        }
      } else {
        if step < 0 {
          octave := octave - 1;
          if octave < 0 {
            octave := 0;
            step := 1;
            if step >= count {
              step := 0;
            }
            direction := 1;
          } else {
            step := count - 1;
          }
        }
      }
    }

    /** arp_process */
    method Process(delta: real) returns (ev: ArpEvent)
      requires Valid() && State().Steppable()
      modifies this`phase, this`step, this`octave, this`direction, this`seed, this`lastNote, this`noteOn
      ensures Valid()
      ensures ArpStep(State(), ev) == old(State()).Processed(delta)
    {
      if settings.enabled == 0 || count == 0 {
        if noteOn && lastNote >= 0 {
          ev := NoteOffEvent(lastNote);
          noteOn := false;
          lastNote := -1;
          return;
        }
        return NoEvent;
      }
      var oldPhase := phase;
      phase := phase + PhaseIncrement(delta, settings.tempo, settings.division);
      if noteOn && oldPhase < settings.gate && phase >= settings.gate {
        ev := NoteOffEvent(lastNote);
        noteOn := false;
        return;
      }
      if phase >= 1.0 {
        phase := phase - 1.0;
        ev := PlayNext();
        return;
      }
      ev := NoEvent;
    }

    /** The step boundary of arp_process, once the phase has wrapped. */
    method PlayNext() returns (ev: ArpEvent)
      requires Valid() && count > 0
      modifies this`step, this`octave, this`direction, this`seed, this`lastNote, this`noteOn
      ensures ArpStep(State(), ev) == old(State()).NextNote(old(phase))
      ensures Valid()
    {
      AdvanceStep();
      if step < 0 {
        step := 0;
      }
      if step >= count {
        step := count - 1;
      }
      var baseNote := held[step].note;
      var octaveOffset := octave * 12;
      ev := NoteOnEvent(baseNote + octaveOffset, held[step].velocity);
      lastNote := baseNote + octaveOffset;
      noteOn := true;
    }
  }
}
