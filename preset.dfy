/** The preset file code of src/preset.c: the slot-to-path format, the
    JSON string escape of the writer and the string reader of the loader,
    and preset_load's scan of the document: a current section set by a key
    whose value opens an object, and a dispatch of every numeric value on
    (section, key) to a setter call or a field store. The file is a
    character sequence; the end of the sequence is EOF. */
module Presets {
  import opened Numeric
  import opened Wrappers
  import Oscillators
  import Filters
  import Synths

  /** PRESET_DIR */
  const PresetDir: seq<char> := "presets"

  /** The char key[64] and char strval[64] buffers of preset_load. */
  const KeySize: int := 64
  const ValueSize: int := 64

  // ---------------------------------------------------------------------
  // C strings

  /** What a C function sees of a buffer: the characters before the first
      NUL. */
  function CString(s: seq<char>): (r: seq<char>)
    ensures r <= s
    ensures '\0' !in r
    ensures |r| < |s| ==> s[|r|] == '\0'
  {
    if s == [] || s[0] == '\0' then [] else [s[0]] + CString(s[1..])
  }

  /** A string without NUL is its own C string. */
  lemma {:induction false} CStringOfPlain(s: seq<char>)
    requires '\0' !in s
    ensures CString(s) == s
  {
    if s != [] {
      assert s[0] != '\0';
      CStringOfPlain(s[1..]);
      assert s == [s[0]] + s[1..];
    }
  }

  /** The C string of a buffer ends at its first NUL, or at its end. */
  lemma {:induction false} CStringUpTo(s: seq<char>, i: nat)
    requires i <= |s| && '\0' !in s[..i] && (i == |s| || s[i] == '\0')
    ensures CString(s) == s[..i]
  {
    if i > 0 {
      assert s[0] == s[..i][0];
      assert s[1..][..i - 1] == s[..i][1..];
      CStringUpTo(s[1..], i - 1);
    }
  }

  /** strncpy into an n+1 byte buffer that is then terminated: at most n
      characters survive. */
  function Prefix(s: seq<char>, n: nat): (r: seq<char>)
    ensures r <= s && |r| <= n
    ensures |s| <= n ==> r == s
  {
    if |s| <= n then s else s[..n]
  }

  // ---------------------------------------------------------------------
  // preset_filename

  function DigitChar(d: int): (c: char)
    requires 0 <= d < 10
    ensures '0' <= c <= '9'
  {
    ('0' as int + d) as char
  }

  /** The decimal digits of n, most significant first, without leading
      zeros. */
  function Digits(n: nat): (s: seq<char>)
    ensures 1 <= |s|
    ensures forall i :: 0 <= i < |s| ==> '0' <= s[i] <= '9'
  {
    if n < 10 then [DigitChar(n)] else Digits(n / 10) + [DigitChar(n % 10)]
  }

  /** The value of a string of decimal digits. */
  function ValueOf(s: seq<char>): nat
    requires forall i :: 0 <= i < |s| ==> '0' <= s[i] <= '9'
  {
    if s == [] then 0 else ValueOf(s[..|s| - 1]) * 10 + (s[|s| - 1] as int - '0' as int)
  }

  /** The digits read back give the number. */
  lemma {:induction false} ValueOfDigits(n: nat)
    ensures ValueOf(Digits(n)) == n
  {
    if n >= 10 {
      var s := Digits(n);
      assert s[..|s| - 1] == Digits(n / 10);
      ValueOfDigits(n / 10);
    }
  }

  /** Leading zeros do not change the value. */
  lemma {:induction false} ValueOfPadded(k: nat, s: seq<char>)
    requires forall i :: 0 <= i < |s| ==> '0' <= s[i] <= '9'
    ensures ValueOf(Zeros(k) + s) == ValueOf(s)
  {
    if s == [] {
      ValueOfZeros(k);
      assert Zeros(k) + s == Zeros(k);
    } else {
      var t := Zeros(k) + s;
      assert t[..|t| - 1] == Zeros(k) + s[..|s| - 1];
      ValueOfPadded(k, s[..|s| - 1]);
    }
  }

  lemma {:induction false} ValueOfZeros(k: nat)
    ensures ValueOf(Zeros(k)) == 0
  {
    if k > 0 {
      assert Zeros(k)[..k - 1] == Zeros(k - 1);
      ValueOfZeros(k - 1);
    }
  }

  function Zeros(k: nat): (s: seq<char>)
    ensures |s| == k && forall i :: 0 <= i < k ==> s[i] == '0'
  {
    seq(k, _ => '0')
  }

  /** printf's %03d: at least three characters, zero-filled after the sign. */
  function Format03(n: int): (s: seq<char>)
    ensures 3 <= |s|
  {
    if n >= 0 then
      var d := Digits(n);
      if |d| >= 3 then d else Zeros(3 - |d|) + d
    else
      var d := Digits(-n);
      ['-'] + if |d| >= 2 then d else Zeros(2 - |d|) + d
  }

  /** preset_filename: "presets/" followed by the slot as %03d and ".json",
      cut to the buffer as snprintf cuts it (at most buffer_size - 1
      characters before the terminator). */
  function Filename(slot: int, bufferSize: int): seq<char>
    requires 1 <= bufferSize
  {
    Prefix(PresetDir + "/" + Format03(slot) + ".json", bufferSize - 1)
  }

  /** The slot a preset path names: the digits between "presets/" and
      ".json", if the path has that shape. */
  function SlotOf(path: seq<char>): Option<nat>
  {
    if |path| >= 13 && path[..8] == PresetDir + "/" && path[|path| - 5..] == ".json" &&
       forall i :: 8 <= i < |path| - 5 ==> '0' <= path[i] <= '9'
    then Some(ValueOf(path[8..|path| - 5]))
    else None
  }

  /** For the slots 0..999 the path is 16 characters: "presets/", three
      digits, ".json"; the slot is recovered from it, so distinct slots
      name distinct files. */
  lemma FilenameRoundTrip(slot: int, bufferSize: int)
    requires 0 <= slot <= 999 && 17 <= bufferSize
    ensures |Filename(slot, bufferSize)| == 16
    ensures Filename(slot, bufferSize) ==
      "presets/" + [DigitChar(slot / 100), DigitChar(slot / 10 % 10), DigitChar(slot % 10)] + ".json"
    ensures SlotOf(Filename(slot, bufferSize)) == Some(slot)
  {
    var three := [DigitChar(slot / 100), DigitChar(slot / 10 % 10), DigitChar(slot % 10)];
    ThreeDigits(slot);
    var path := "presets/" + three + ".json";
    assert PresetDir + "/" + Format03(slot) + ".json" == path;
    assert |path| == 16;
    SlotOfPath(three);
  }

  /** A path "presets/ddd.json" names the slot ddd. */
  lemma SlotOfPath(three: seq<char>)
    requires |three| == 3 && forall i :: 0 <= i < 3 ==> '0' <= three[i] <= '9'
    ensures SlotOf("presets/" + three + ".json") == Some(ValueOf(three))
  {
    var path := "presets/" + three + ".json";
    assert path[..8] == PresetDir + "/";
    assert path[|path| - 5..] == ".json";
    assert path[8..|path| - 5] == three;
  }

  /** %03d of 0..999 is its three decimal digits, and they read back as
      the number. */
  lemma ThreeDigits(n: int)
    requires 0 <= n <= 999
    ensures Format03(n) == [DigitChar(n / 100), DigitChar(n / 10 % 10), DigitChar(n % 10)]
    ensures ValueOf(Format03(n)) == n
  {
    ValueOfDigits(n);
    if n < 10 {
      PaddedTwice(n);
      ValueOfPadded(2, Digits(n));
    } else if n < 100 {
      PaddedOnce(n);
      ValueOfPadded(1, Digits(n));
    } else {
      Unpadded(n);
    }
  }

  lemma PaddedTwice(n: int)
    requires 0 <= n < 10
    ensures Format03(n) == Zeros(2) + Digits(n)
    ensures Format03(n) == [DigitChar(n / 100), DigitChar(n / 10 % 10), DigitChar(n % 10)]
  {
    assert Digits(n) == [DigitChar(n)];
  }

  lemma PaddedOnce(n: int)
    requires 10 <= n < 100
    ensures Format03(n) == Zeros(1) + Digits(n)
    ensures Format03(n) == [DigitChar(n / 100), DigitChar(n / 10 % 10), DigitChar(n % 10)]
  {
    assert Digits(n) == Digits(n / 10) + [DigitChar(n % 10)];
    assert Digits(n / 10) == [DigitChar(n / 10)];
  }

  lemma Unpadded(n: int)
    requires 100 <= n <= 999
    ensures Format03(n) == Digits(n)
    ensures Format03(n) == [DigitChar(n / 100), DigitChar(n / 10 % 10), DigitChar(n % 10)]
  {
    assert Digits(n) == Digits(n / 10) + [DigitChar(n % 10)];
    assert Digits(n / 10) == Digits(n / 100) + [DigitChar(n / 10 % 10)];
    assert Digits(n / 100) == [DigitChar(n / 100)];
  }

  // ---------------------------------------------------------------------
  // write_json_string

  /** The characters the writer emits for one value character: a quote or
      a backslash gets a backslash in front. */
  function EscapeChar(c: char): seq<char>
  {
    if c == '"' || c == '\\' then ['\\', c] else [c]
  }

  function Escape(s: seq<char>): seq<char>
  {
    if s == [] then [] else EscapeChar(s[0]) + Escape(s[1..])
  }

  lemma {:induction false} EscapeAppend(s: seq<char>, c: char)
    ensures Escape(s + [c]) == Escape(s) + EscapeChar(c)
  {
    if s != [] {
      assert (s + [c])[1..] == s[1..] + [c];
      EscapeAppend(s[1..], c);
    }
  }

  /** A value with nothing to escape is written as it is. */
  lemma {:induction false} EscapePlain(s: seq<char>)
    requires '"' !in s && '\\' !in s
    ensures Escape(s) == s
  {
    if s != [] {
      EscapePlain(s[1..]);
      assert s == [s[0]] + s[1..];
    }
  }

  lemma Assoc(a: seq<char>, b: seq<char>, c: seq<char>)
    ensures a + (b + c) == (a + b) + c
  {
  }

  /** `  "key": "` */
  function KeyHeader(key: seq<char>): seq<char>
  {
    "  \"" + CString(key) + "\": \""
  }

  /** write_json_string: the header, each character of the value up to its
      terminator escaped, and a closing quote. */
  method WriteJsonString(key: seq<char>, value: seq<char>) returns (out: seq<char>)
    ensures out == KeyHeader(key) + Escape(CString(value)) + "\""
  {
    out := KeyHeader(key);
    var i := 0;
    while i < |value| && value[i] != '\0'
      invariant 0 <= i <= |value|
      invariant '\0' !in value[..i]
      invariant out == KeyHeader(key) + Escape(value[..i])
    {
      ghost var before := out;
      if value[i] == '"' || value[i] == '\\' {
        out := out + ['\\'];
      }
      out := out + [value[i]];
      assert out == before + EscapeChar(value[i]);
      EscapeAppend(value[..i], value[i]);
      Assoc(KeyHeader(key), Escape(value[..i]), EscapeChar(value[i]));
      assert value[..i + 1] == value[..i] + [value[i]];
      i := i + 1;
    }
    CStringUpTo(value, i);
    out := out + "\"";
  }

  // ---------------------------------------------------------------------
  // read_string and skip_whitespace

  /** What read_string leaves: its return code (0 when it stopped at a
      quote, -1 otherwise), the characters it stored, and the position of
      the next unread character. */
  datatype Read = Read(status: int, text: seq<char>, next: nat)

  /** read_string from position pos with acc already stored and room for
      limit characters (buf_size - 1): a backslash is dropped and the
      character after it kept as it is; an unescaped quote ends the
      string; a character read when the buffer is full is consumed and
      ends it too. */
  function ReadFrom(input: seq<char>, pos: nat, acc: seq<char>, limit: nat): (r: Read)
    requires pos <= |input| && |acc| <= limit
    ensures pos <= r.next <= |input|
    ensures acc <= r.text && |r.text| <= limit
    ensures r.status == 0 || r.status == -1
    ensures r.status == 0 ==> pos < r.next && input[r.next - 1] == '"'
    ensures r.status == -1 ==> r.next == |input| || |r.text| == limit
    decreases |input| - pos
  {
    if pos == |input| then Read(-1, acc, pos)
    else if input[pos] == '"' then Read(0, acc, pos + 1)
    else if |acc| == limit then Read(-1, acc, pos + 1)
    else if input[pos] == '\\' then
      if pos + 1 == |input| then Read(-1, acc, pos + 1)
      else ReadFrom(input, pos + 2, acc + [input[pos + 1]], limit)
    else ReadFrom(input, pos + 1, acc + [input[pos]], limit)
  }

  /** The first character of an escaped value as it sits in the stream. */
  lemma EscapeHead(v: seq<char>, rest: seq<char>, pre: seq<char>)
    requires v != []
    ensures var input := pre + Escape(v) + "\"" + rest;
      input == (pre + EscapeChar(v[0])) + Escape(v[1..]) + "\"" + rest &&
      if v[0] == '"' || v[0] == '\\' then input[|pre|] == '\\' && input[|pre| + 1] == v[0]
      else input[|pre|] == v[0]
  {
    var e := EscapeChar(v[0]);
    assert Escape(v) == e + Escape(v[1..]);
    Assoc(pre, e, Escape(v[1..]));
  }

  /** Reading back what write_json_string wrote recovers the value when it
      fits, and stops just after the closing quote. */
  lemma {:induction false} EscapeRoundTrip(v: seq<char>, rest: seq<char>, pre: seq<char>, acc: seq<char>, limit: nat)
    requires |acc| + |v| <= limit
    ensures var input := pre + Escape(v) + "\"" + rest;
      ReadFrom(input, |pre|, acc, limit) == Read(0, acc + v, |pre| + |Escape(v)| + 1)
  {
    var input := pre + Escape(v) + "\"" + rest;
    if v == [] {
      assert input[|pre|] == '"';
    } else {
      var c := v[0];
      var pre' := pre + EscapeChar(c);
      EscapeHead(v, rest, pre);
      EscapeRoundTrip(v[1..], rest, pre', acc + [c], limit);
      assert ReadFrom(input, |pre|, acc, limit) == ReadFrom(input, |pre'|, acc + [c], limit);
      assert acc + [c] + v[1..] == acc + v;
    }
  }

  /** A value longer than the buffer is cut to the buffer and reported as
      an error: the character that does not fit is consumed. */
  lemma {:induction false} ReadTruncates(v: seq<char>, rest: seq<char>, pre: seq<char>, acc: seq<char>, limit: nat)
    requires |acc| <= limit < |acc| + |v|
    ensures var input := pre + Escape(v) + "\"" + rest;
      ReadFrom(input, |pre|, acc, limit).status == -1 &&
      ReadFrom(input, |pre|, acc, limit).text == acc + v[..limit - |acc|]
  {
    var input := pre + Escape(v) + "\"" + rest;
    var c := v[0];
    var pre' := pre + EscapeChar(c);
    EscapeHead(v, rest, pre);
    if |acc| < limit {
      ReadTruncates(v[1..], rest, pre', acc + [c], limit);
      assert ReadFrom(input, |pre|, acc, limit) == ReadFrom(input, |pre'|, acc + [c], limit);
      assert acc + [c] + v[1..][..limit - |acc| - 1] == acc + v[..limit - |acc|];
    } else {
      assert v[..limit - |acc|] == [];
    }
  }

  /** read_string on a stream positioned at pos, into a buffer of
      bufSize characters. */
  method ReadString(input: seq<char>, pos: nat, bufSize: int) returns (r: Read)
    requires pos <= |input| && 1 <= bufSize
    ensures r == ReadFrom(input, pos, [], bufSize - 1)
  {
    var buf: seq<char> := [];
    var p := pos;
    while p < |input| && input[p] != '"' && |buf| < bufSize - 1
      invariant pos <= p <= |input| && |buf| <= bufSize - 1
      invariant ReadFrom(input, p, buf, bufSize - 1) == ReadFrom(input, pos, [], bufSize - 1)
      decreases |input| - p
    {
      var c := input[p];
      if c == '\\' {
        if p + 1 == |input| {
          return Read(-1, buf, p + 1);
        }
        c := input[p + 1];
        p := p + 1;
      }
      buf := buf + [c];
      p := p + 1;
    }
    if p == |input| {
      r := Read(-1, buf, p);
    } else if input[p] == '"' {
      r := Read(0, buf, p + 1);
    } else {
      r := Read(-1, buf, p + 1);
    }
  }

  /** isspace in the C locale. */
  predicate IsSpace(c: char)
  {
    c == ' ' || c == '\t' || c == '\n' || c == '\r' || c as int == 11 || c as int == 12
  }

  /** Where skip_whitespace stops: the first character at or after pos that
      is not white space, or the end. */
  function SkipSpace(input: seq<char>, pos: nat): (p: nat)
    requires pos <= |input|
    ensures pos <= p <= |input|
    ensures p < |input| ==> !IsSpace(input[p])
    decreases |input| - pos
  {
    if pos == |input| || !IsSpace(input[pos]) then pos else SkipSpace(input, pos + 1)
  }

  /** skip_whitespace: the first character that is not white space
      (consumed), or None at EOF; p is the position after it. */
  method SkipWhitespace(input: seq<char>, pos: nat) returns (c: Option<char>, p: nat)
    requires pos <= |input|
    ensures var s := SkipSpace(input, pos);
      if s == |input| then c == None && p == s else c == Some(input[s]) && p == s + 1
  {
    p := pos;
    while p < |input| && IsSpace(input[p])
      invariant pos <= p <= |input|
      invariant SkipSpace(input, p) == SkipSpace(input, pos)
    {
      p := p + 1;
    }
    if p == |input| {
      c := None;
    } else {
      c := Some(input[p]);
      p := p + 1;
    }
  }

  /** preset_load's "skip to colon": the position after the next ':', or
      None when the file ends first. */
  function ColonAfter(input: seq<char>, pos: nat): (r: Option<nat>)
    requires pos <= |input|
    ensures r.Some? ==> pos < r.value <= |input| && input[r.value - 1] == ':'
    decreases |input| - pos
  {
    if pos == |input| then None
    else if input[pos] == ':' then Some(pos + 1)
    else ColonAfter(input, pos + 1)
  }

  // ---------------------------------------------------------------------
  // Numbers

  /** What fscanf("%f") does at a position: whether it matched, the value,
      and how many characters it consumed. The number syntax is not part
      of this model; the scanner is a parameter. */
  datatype Scanned = Scanned(matched: bool, value: real, used: nat)
  datatype NumberScanner = NumberScanner(scan: seq<char> -> Scanned)

  /** read_number at position v: 0 when nothing matched (the initial value
      of val), and never past the end of the file. */
  function ScanNumber(num: NumberScanner, input: seq<char>, v: nat): (r: Scanned)
    requires v <= |input|
    ensures v + r.used <= |input|
    ensures !r.matched ==> r.value == 0.0
  {
    var s := num.scan(input[v..]);
    var used := if s.used <= |input| - v then s.used else |input| - v;
    Scanned(s.matched, if s.matched then s.value else 0.0, used)
  }

  // ---------------------------------------------------------------------
  // Dispatch

  /** The synth setters preset_load calls. */
  datatype Setter =
    | SetWaveType | SetWaveType2 | SetOscMix | SetOsc2Detune | SetSubOscMix | SetPulseWidth
    | SetPwmRate | SetPwmDepth | SetUnisonCount | SetUnisonSpread | SetWavetable | SetWtPosition
    | SetFilterEnvAmount | SetLfoType | SetLfoRate | SetLfoDepth | SetVolume

  /** The fields preset_load assigns directly, without a setter. */
  datatype Field =
    | FilterTypeField | FilterCutoff | FilterResonance
    | Attack | Decay | Sustain | Release
    | FilterEnvAttack | FilterEnvDecay | FilterEnvSustain | FilterEnvRelease
    | ArpEnabled | ArpPattern | ArpDivision | ArpTempo | ArpOctaves | ArpGate
    | DelayTime | DelayFeedback | DelayMix | ReverbMix | ReverbSize | DistDrive | DistMix

  /** The setters re-invoked with the synth's current fields after each
      numeric key of their section: synth_set_filter, synth_set_adsr and
      synth_set_filter_env_adsr. */
  datatype Group = FilterGroup | AmpEnvGroup | FilterEnvGroup

  /** A value as passed: a float, or the float cast to int. */
  datatype Value = Real(r: real) | Whole(n: int)

  /** One effect of a numeric key on the Synth, Effects and Arpeggiator. */
  datatype Call = Invoke(setter: Setter, arg: Value) | Store(field: Field, arg: Value) | Reapply(group: Group)

  /** The section names that have a branch in preset_load. */
  predicate KnownSection(section: seq<char>)
  {
    section == "oscillator" || section == "filter" || section == "amp_env" || section == "filter_env" ||
    section == "lfo" || section == "arpeggiator" || section == "effects"
  }

  /** No call in the list sets the master volume. */
  predicate NoVolume(calls: seq<Call>)
  {
    forall i :: 0 <= i < |calls| ==> !(calls[i].Invoke? && calls[i].setter == SetVolume)
  }

  /** What preset_load does with the number val under key in section:
      each known section has its own keys, and outside them only
      "volume" is recognised. */
  function Dispatch(section: seq<char>, key: seq<char>, val: real): seq<Call>
  {
    if section == "oscillator" then OscillatorKey(key, val)
    else if section == "filter" then FilterKey(key, val) + [Reapply(FilterGroup)]
    else if section == "amp_env" then AmpEnvKey(key, val) + [Reapply(AmpEnvGroup)]
    else if section == "filter_env" then FilterEnvKey(key, val) + [Reapply(FilterEnvGroup)]
    else if section == "lfo" then LfoKey(key, val)
    else if section == "arpeggiator" then ArpKey(key, val)
    else if section == "effects" then EffectsKey(key, val)
    else if key == "volume" then [Invoke(SetVolume, Real(val))]
    else []
  }

  /** The oscillator keys: each calls its synth setter; the wave and
      count keys pass the number cast to int. */
  function OscillatorKey(key: seq<char>, val: real): (r: seq<Call>)
    ensures |r| <= 1 && NoVolume(r)
  {
    var whole := Whole(Trunc(val));
    if key == "wave1" then [Invoke(SetWaveType, whole)]
    else if key == "wave2" then [Invoke(SetWaveType2, whole)]
    else if key == "mix" then [Invoke(SetOscMix, Real(val))]
    else if key == "detune" then [Invoke(SetOsc2Detune, Real(val))]
    else if key == "sub_mix" then [Invoke(SetSubOscMix, Real(val))]
    else if key == "pulse_width" then [Invoke(SetPulseWidth, Real(val))]
    else if key == "pwm_rate" then [Invoke(SetPwmRate, Real(val))]
    else if key == "pwm_depth" then [Invoke(SetPwmDepth, Real(val))]
    else if key == "unison_count" then [Invoke(SetUnisonCount, whole)]
    else if key == "unison_spread" then [Invoke(SetUnisonSpread, Real(val))]
    else if key == "wavetable_type" then [Invoke(SetWavetable, whole)]
    else if key == "wt_position" then [Invoke(SetWtPosition, Real(val))]
    else []
  }

  /** The filter keys store into the synth's fields; synth_set_filter
      follows. */
  function FilterKey(key: seq<char>, val: real): (r: seq<Call>)
    ensures |r| <= 1 && NoVolume(r)
    ensures r == [] <==> !(key in ["type", "cutoff", "resonance"])
  {
    if key == "type" then [Store(FilterTypeField, Whole(Trunc(val)))]
    else if key == "cutoff" then [Store(FilterCutoff, Real(val))]
    else if key == "resonance" then [Store(FilterResonance, Real(val))]
    else []
  }

  /** The amp_env keys store into the synth's fields; synth_set_adsr
      follows. */
  function AmpEnvKey(key: seq<char>, val: real): (r: seq<Call>)
    ensures |r| <= 1 && NoVolume(r)
    ensures r == [] <==> !(key in ["attack", "decay", "sustain", "release"])
  {
    if key == "attack" then [Store(Attack, Real(val))]
    else if key == "decay" then [Store(Decay, Real(val))]
    else if key == "sustain" then [Store(Sustain, Real(val))]
    else if key == "release" then [Store(Release, Real(val))]
    else []
  }

  /** The filter_env keys store into the synth's fields, except "amount",
      which has a setter; synth_set_filter_env_adsr follows. */
  function FilterEnvKey(key: seq<char>, val: real): (r: seq<Call>)
    ensures |r| <= 1 && NoVolume(r)
    ensures r == [] <==> !(key in ["attack", "decay", "sustain", "release", "amount"])
  {
    if key == "attack" then [Store(FilterEnvAttack, Real(val))]
    else if key == "decay" then [Store(FilterEnvDecay, Real(val))]
    else if key == "sustain" then [Store(FilterEnvSustain, Real(val))]
    else if key == "release" then [Store(FilterEnvRelease, Real(val))]
    else if key == "amount" then [Invoke(SetFilterEnvAmount, Real(val))]
    else []
  }

  function LfoKey(key: seq<char>, val: real): (r: seq<Call>)
    ensures |r| <= 1 && NoVolume(r)
  {
    if key == "type" then [Invoke(SetLfoType, Whole(Trunc(val)))]
    else if key == "rate" then [Invoke(SetLfoRate, Real(val))]
    else if key == "depth" then [Invoke(SetLfoDepth, Real(val))]
    else []
  }

  /** The arpeggiator keys store into the Arpeggiator's fields as read,
      with no range check. */
  function ArpKey(key: seq<char>, val: real): (r: seq<Call>)
    ensures |r| <= 1 && NoVolume(r)
  {
    var whole := Whole(Trunc(val));
    if key == "enabled" then [Store(ArpEnabled, whole)]
    else if key == "pattern" then [Store(ArpPattern, whole)]
    else if key == "division" then [Store(ArpDivision, whole)]
    else if key == "tempo" then [Store(ArpTempo, Real(val))]
    else if key == "octaves" then [Store(ArpOctaves, whole)]
    else if key == "gate" then [Store(ArpGate, Real(val))]
    else []
  }

  /** The effects keys store into the Effects' fields as read, with no
      clamp. */
  function EffectsKey(key: seq<char>, val: real): (r: seq<Call>)
    ensures |r| <= 1 && NoVolume(r)
  {
    if key == "delay_time" then [Store(DelayTime, Real(val))]
    else if key == "delay_feedback" then [Store(DelayFeedback, Real(val))]
    else if key == "delay_mix" then [Store(DelayMix, Real(val))]
    else if key == "reverb_mix" then [Store(ReverbMix, Real(val))]
    else if key == "reverb_size" then [Store(ReverbSize, Real(val))]
    else if key == "dist_drive" then [Store(DistDrive, Real(val))]
    else if key == "dist_mix" then [Store(DistMix, Real(val))]
    else []
  }

  /** The group section of a setter that is re-invoked after every key. */
  function GroupOf(section: seq<char>): Option<Group>
  {
    if section == "filter" then Some(FilterGroup)
    else if section == "amp_env" then Some(AmpEnvGroup)
    else if section == "filter_env" then Some(FilterEnvGroup)
    else None
  }

  /** In the filter, amp_env and filter_env sections every numeric key,
      known or not, ends by re-invoking the section's setter, and a key
      the section does not know does only that; in every other section a
      key makes at most one call. */
  lemma DispatchGroups(section: seq<char>, key: seq<char>, val: real)
    ensures GroupOf(section).Some? ==>
      var calls := Dispatch(section, key, val);
      1 <= |calls| <= 2 && calls[|calls| - 1] == Reapply(GroupOf(section).value)
    ensures section == "filter" && !(key in ["type", "cutoff", "resonance"]) ==>
      Dispatch(section, key, val) == [Reapply(FilterGroup)]
    ensures section == "amp_env" && !(key in ["attack", "decay", "sustain", "release"]) ==>
      Dispatch(section, key, val) == [Reapply(AmpEnvGroup)]
    ensures section == "filter_env" && !(key in ["attack", "decay", "sustain", "release", "amount"]) ==>
      Dispatch(section, key, val) == [Reapply(FilterEnvGroup)]
    ensures GroupOf(section).None? ==> |Dispatch(section, key, val)| <= 1
  {
  }

  /** The master volume is set only by a "volume" key read while the
      current section is none of the seven known ones. */
  lemma VolumeOnlyOutsideSections(section: seq<char>, key: seq<char>, val: real)
    ensures KnownSection(section) ==> NoVolume(Dispatch(section, key, val))
    ensures !KnownSection(section) && key != "volume" ==> Dispatch(section, key, val) == []
    ensures !KnownSection(section) && key == "volume" ==> Dispatch(section, key, val) == [Invoke(SetVolume, Real(val))]
  {
    if section == "filter" {
      NoVolumeAppend(FilterKey(key, val), [Reapply(FilterGroup)]);
    } else if section == "amp_env" {
      NoVolumeAppend(AmpEnvKey(key, val), [Reapply(AmpEnvGroup)]);
    } else if section == "filter_env" {
      NoVolumeAppend(FilterEnvKey(key, val), [Reapply(FilterEnvGroup)]);
    }
  }

  lemma NoVolumeAppend(a: seq<Call>, b: seq<Call>)
    requires NoVolume(a) && NoVolume(b)
    ensures NoVolume(a + b)
  {
    assert forall i :: |a| <= i < |a + b| ==> (a + b)[i] == b[i - |a|];
  }

  /** The arpeggiator and effects keys store the number as it is read: any
      value, however far outside the range the setters would clamp to,
      reaches the field. */
  lemma UncheckedStores(val: real)
    ensures Dispatch("effects", "delay_time", val) == [Store(DelayTime, Real(val))]
    ensures Dispatch("effects", "reverb_size", val) == [Store(ReverbSize, Real(val))]
    ensures Dispatch("arpeggiator", "division", val) == [Store(ArpDivision, Whole(Trunc(val)))]
  {
  }

  // ---------------------------------------------------------------------
  // preset_load

  /** A numeric value as preset_load met it: the section current at the
      time, the key, and the number read. */
  datatype Numbered = Numbered(section: seq<char>, key: seq<char>, val: real)

  /** What preset_load keeps between keys: the current section, the name
      buffer and the numeric values met so far, each already dispatched
      in turn. */
  datatype Loader = Loader(section: seq<char>, name: seq<char>, numbers: seq<Numbered>)

  /** The calls the numbers make, in the order they were met, each number
      dispatched by d. */
  function CallsOf(ns: seq<Numbered>, d: (seq<char>, seq<char>, real) -> seq<Call>): seq<Call>
  {
    if ns == [] then [] else
      var last := ns[|ns| - 1];
      CallsOf(ns[..|ns| - 1], d) + d(last.section, last.key, last.val)
  }

  /** The calls preset_load makes for the numbers it met. */
  function Calls(ns: seq<Numbered>): seq<Call>
  {
    CallsOf(ns, Dispatch)
  }

  lemma {:induction false} CallsAppend(a: seq<Numbered>, b: seq<Numbered>, d: (seq<char>, seq<char>, real) -> seq<Call>)
    ensures CallsOf(a + b, d) == CallsOf(a, d) + CallsOf(b, d)
    decreases |b|
  {
    if b == [] {
      assert a + b == a;
    } else {
      var last := b[|b| - 1];
      assert (a + b)[..|a + b| - 1] == a + b[..|b| - 1];
      assert (a + b)[|a + b| - 1] == last;
      CallsAppend(a, b[..|b| - 1], d);
    }
  }

  /** One more number adds its own calls at the end. */
  lemma CallsStep(ns: seq<Numbered>, ns': seq<Numbered>)
    requires ns <= ns' && |ns'| <= |ns| + 1
    ensures |ns'| == |ns| ==> Calls(ns') == Calls(ns)
    ensures |ns'| > |ns| ==>
      var n := ns'[|ns|];
      Calls(ns') == Calls(ns) + Dispatch(n.section, n.key, n.val)
  {
    if |ns'| > |ns| {
      assert ns'[..|ns|] == ns;
    } else {
      assert ns' == ns;
    }
  }

  /** Numbers met inside the seven known sections never set the master
      volume. */
  lemma {:induction false} KnownSectionsKeepVolume(ns: seq<Numbered>)
    requires forall i :: 0 <= i < |ns| ==> KnownSection(ns[i].section)
    ensures NoVolume(CallsOf(ns, Dispatch))
  {
    if ns != [] {
      var last := ns[|ns| - 1];
      KnownSectionsKeepVolume(ns[..|ns| - 1]);
      VolumeOnlyOutsideSections(last.section, last.key, last.val);
      NoVolumeAppend(CallsOf(ns[..|ns| - 1], Dispatch), Dispatch(last.section, last.key, last.val));
    }
  }

  /** One key of preset_load, starting at its opening quote p: None when
      the loop breaks (the key does not end with a quote, or no colon
      follows), else the position after the value and the new loader. */
  function Entry(input: seq<char>, p: nat, st: Loader, nameRoom: nat, num: NumberScanner): (r: Option<(nat, Loader)>)
    requires p < |input| && input[p] == '"'
    ensures r.Some? ==> p < r.value.0 <= |input|
    ensures r.Some? ==> st.numbers <= r.value.1.numbers && |r.value.1.numbers| <= |st.numbers| + 1
  {
    var k := ReadFrom(input, p + 1, [], KeySize - 1);
    if k.status < 0 then None
    else
      match ColonAfter(input, k.next)
      case None => None
      case Some(q) => Some(ValueStep(input, q, CString(k.text), st, nameRoom, num))
  }

  /** The value of key, from position q just after the colon: a value
      that opens an object makes key the section; a string value under
      "name" becomes the name (cut to nameRoom characters); anything else
      is read as a number (0 at the end of the file) and dispatched. */
  function ValueStep(input: seq<char>, q: nat, key: seq<char>, st: Loader, nameRoom: nat, num: NumberScanner): (r: (nat, Loader))
    requires q <= |input|
    ensures q <= r.0 <= |input|
    ensures r.1.section == st.section || r.1.section == key
    ensures r.1.section != st.section ==> SkipSpace(input, q) < |input| && input[SkipSpace(input, q)] == '{'
    ensures st.numbers <= r.1.numbers && |r.1.numbers| <= |st.numbers| + 1
    ensures |r.1.numbers| > |st.numbers| ==>
              r.1.numbers[|st.numbers|].section == st.section && r.1.numbers[|st.numbers|].key == key
  {
    var v := SkipSpace(input, q);
    if v == |input| then
      (v, st.(numbers := st.numbers + [Numbered(st.section, key, 0.0)]))
    else if input[v] == '{' then
      (v + 1, st.(section := key))
    else if input[v] == '"' then
      var s := ReadFrom(input, v + 1, [], ValueSize - 1);
      (s.next, if key == "name" then st.(name := Prefix(CString(s.text), nameRoom)) else st)
    else
      var n := ScanNumber(num, input, v);
      (v + n.used, st.(numbers := st.numbers + [Numbered(st.section, key, n.value)]))
  }

  /** preset_load's loop from position pos. With resetOnClose false it is
      the loop as written: '{', ',' and '}' are skipped like any other
      character outside a key, so a section, once set, lasts until the
      next key whose value opens an object. With resetOnClose true a '}'
      also returns to the top level. */
  function LoadFrom(input: seq<char>, pos: nat, st: Loader, nameRoom: nat, num: NumberScanner, resetOnClose: bool): Loader
    requires pos <= |input|
    decreases |input| - pos
  {
    var p := SkipSpace(input, pos);
    if p == |input| then st
    else if input[p] == '}' && resetOnClose then LoadFrom(input, p + 1, st.(section := []), nameRoom, num, resetOnClose)
    else if input[p] != '"' then LoadFrom(input, p + 1, st, nameRoom, num, resetOnClose)
    else
      match Entry(input, p, st, nameRoom, num)
      case None => st
      case Some((next, st')) => LoadFrom(input, next, st', nameRoom, num, resetOnClose)
  }

  /** preset_load as written, on a file that opened: an empty section, an
      emptied name, nothing read yet. */
  function Loaded(input: seq<char>, nameRoom: nat, num: NumberScanner): Loader
  {
    LoadFrom(input, 0, Loader([], [], []), nameRoom, num, false)
  }

  /** preset_load with the section closed by '}'. */
  function LoadedWithClose(input: seq<char>, nameRoom: nat, num: NumberScanner): Loader
  {
    LoadFrom(input, 0, Loader([], [], []), nameRoom, num, true)
  }

  /** preset_load on the whole file: the name it leaves and the calls it
      makes, in order. With resetOnClose false this is the loop as written;
      with resetOnClose true it is the corrected loop, in which a '}'
      returns to the top level. */
  method Load(input: seq<char>, nameSize: int, num: NumberScanner, resetOnClose: bool) returns (name: seq<char>, calls: seq<Call>)
    requires 1 <= nameSize
    ensures !resetOnClose ==> name == Loaded(input, nameSize - 1, num).name
    ensures !resetOnClose ==> calls == Calls(Loaded(input, nameSize - 1, num).numbers)
    ensures resetOnClose ==> name == LoadedWithClose(input, nameSize - 1, num).name
    ensures resetOnClose ==> calls == Calls(LoadedWithClose(input, nameSize - 1, num).numbers)
  {
    ghost var goal := LoadFrom(input, 0, Loader([], [], []), nameSize - 1, num, resetOnClose);
    var st := Loader([], [], []);
    calls := [];
    var pos: nat := 0;
    var done := false;
    while !done
      invariant pos <= |input|
      invariant done ==> st == goal
      invariant !done ==> LoadFrom(input, pos, st, nameSize - 1, num, resetOnClose) == goal
      invariant calls == Calls(st.numbers)
      decreases if done then 0 else |input| - pos + 1
    {
      pos, st, calls, done := LoadTurn(input, pos, st, calls, nameSize - 1, num, resetOnClose);
    }
    name := st.name;
  }

  /** One turn of preset_load's loop: skip white space, stop at the end of
      the file, skip a character that does not open a key, otherwise
      handle the key and dispatch the number it may carry. */
  method LoadTurn(input: seq<char>, pos: nat, st: Loader, calls: seq<Call>, nameRoom: nat, num: NumberScanner, resetOnClose: bool)
    returns (pos': nat, st': Loader, calls': seq<Call>, done: bool)
    requires pos <= |input| && calls == Calls(st.numbers)
    ensures pos' <= |input| && calls' == Calls(st'.numbers)
    ensures done ==> st' == LoadFrom(input, pos, st, nameRoom, num, resetOnClose)
    ensures !done ==> pos < pos' && LoadFrom(input, pos', st', nameRoom, num, resetOnClose) == LoadFrom(input, pos, st, nameRoom, num, resetOnClose)
  {
    var c, p := SkipWhitespace(input, pos);
    LoadSteps(input, pos, st, nameRoom, num, resetOnClose);
    if c == None {
      return pos, st, calls, true;
    }
    if c == Some('}') && resetOnClose {
      return p, st.(section := []), calls, false;
    }
    if c != Some('"') {
      return p, st, calls, false;
    }
    ghost var k := SkipSpace(input, pos);
    assert k == p - 1 && input[k] == '"';
    var e := ReadEntry(input, p - 1, st, nameRoom, num);
    if e == None {
      return pos, st, calls, true;
    }
    assert LoadFrom(input, pos, st, nameRoom, num, resetOnClose) == LoadFrom(input, e.value.0, e.value.1, nameRoom, num, resetOnClose);
    st' := e.value.1;
    CallsStep(st.numbers, st'.numbers);
    if |st'.numbers| > |st.numbers| {
      var n := st'.numbers[|st.numbers|];
      calls' := calls + Dispatch(n.section, n.key, n.val);
    } else {
      calls' := calls;
    }
    pos', done := e.value.0, false;
  }

  /** One turn of the loop: the end of the file stops it, a '}' closes
      the section when resetOnClose is set, another character that is not
      a quote is skipped, and a key is handled by Entry. */
  lemma LoadSteps(input: seq<char>, pos: nat, st: Loader, nameRoom: nat, num: NumberScanner, resetOnClose: bool)
    requires pos <= |input|
    ensures var p := SkipSpace(input, pos);
      var r := LoadFrom(input, pos, st, nameRoom, num, resetOnClose);
      (p == |input| ==> r == st) &&
      (p < |input| && input[p] == '}' && resetOnClose ==>
         r == LoadFrom(input, p + 1, st.(section := []), nameRoom, num, resetOnClose)) &&
      (p < |input| && !(input[p] == '}' && resetOnClose) && input[p] != '"' ==>
         r == LoadFrom(input, p + 1, st, nameRoom, num, resetOnClose)) &&
      (p < |input| && input[p] == '"' ==>
         var e := Entry(input, p, st, nameRoom, num);
         (e.None? ==> r == st) &&
         (e.Some? ==> r == LoadFrom(input, e.value.0, e.value.1, nameRoom, num, resetOnClose)))
  {
  }

  /** The body of preset_load's loop after the opening quote of a key at
      p: read the key, skip to the colon, skip white space and handle the
      value. */
  method ReadEntry(input: seq<char>, p: nat, st: Loader, nameRoom: nat, num: NumberScanner) returns (r: Option<(nat, Loader)>)
    requires p < |input| && input[p] == '"'
    ensures r == Entry(input, p, st, nameRoom, num)
  {
    var k := ReadString(input, p + 1, KeySize);
    if k.status < 0 {
      return None;
    }
    var q := k.next;
    while q < |input| && input[q] != ':'
      invariant k.next <= q <= |input|
      invariant ColonAfter(input, q) == ColonAfter(input, k.next)
    {
      q := q + 1;
    }
    if q == |input| {
      return None;
    }
    var next, st' := ReadValue(input, q + 1, CString(k.text), st, nameRoom, num);
    r := Some((next, st'));
  }

  /** The value part of the loop body. */
  method ReadValue(input: seq<char>, q: nat, key: seq<char>, st: Loader, nameRoom: nat, num: NumberScanner)
    returns (next: nat, st': Loader)
    requires q <= |input|
    ensures (next, st') == ValueStep(input, q, key, st, nameRoom, num)
  {
    var v, after := SkipWhitespace(input, q);
    if v == Some('{') {
      next, st' := after, st.(section := key);
    } else if v == Some('"') {
      var s := ReadString(input, after, ValueSize);
      next := s.next;
      st' := if key == "name" then st.(name := Prefix(CString(s.text), nameRoom)) else st;
    } else if v == None {
      next, st' := after, st.(numbers := st.numbers + [Numbered(st.section, key, 0.0)]);
    } else {
      var n := ScanNumber(num, input, after - 1);
      next := after - 1 + n.used;
      st' := st.(numbers := st.numbers + [Numbered(st.section, key, n.value)]);
    }
  }

  // ---------------------------------------------------------------------
  // Properties of the loader

  /** The loader only appends numbers, and without resetOnClose the
      section changes only at a '{'. */
  lemma {:induction false} NumbersGrow(input: seq<char>, pos: nat, st: Loader, nameRoom: nat, num: NumberScanner, resetOnClose: bool)
    requires pos <= |input|
    ensures st.numbers <= LoadFrom(input, pos, st, nameRoom, num, resetOnClose).numbers
    decreases |input| - pos
  {
    var p := SkipSpace(input, pos);
    if p < |input| {
      if input[p] == '}' && resetOnClose {
        NumbersGrow(input, p + 1, st.(section := []), nameRoom, num, resetOnClose);
      } else if input[p] != '"' {
        NumbersGrow(input, p + 1, st, nameRoom, num, resetOnClose);
      } else {
        var e := Entry(input, p, st, nameRoom, num);
        if e.Some? {
          var st' := e.value.1;
          NumbersGrow(input, e.value.0, st', nameRoom, num, resetOnClose);
          assert LoadFrom(input, pos, st, nameRoom, num, resetOnClose) == LoadFrom(input, e.value.0, st', nameRoom, num, resetOnClose);
          assert st.numbers <= st'.numbers;
        }
      }
    }
  }

  /** Without a '{' ahead the section cannot change: every number read
      from pos on is read in the current section. */
  lemma {:induction false} SectionHolds(input: seq<char>, pos: nat, st: Loader, nameRoom: nat, num: NumberScanner)
    requires pos <= |input|
    requires forall i :: pos <= i < |input| ==> input[i] != '{'
    requires forall i :: 0 <= i < |st.numbers| ==> st.numbers[i].section == st.section
    ensures var r := LoadFrom(input, pos, st, nameRoom, num, false);
      r.section == st.section && st.numbers <= r.numbers &&
      forall i :: 0 <= i < |r.numbers| ==> r.numbers[i].section == st.section
    decreases |input| - pos
  {
    var p := SkipSpace(input, pos);
    if p < |input| {
      if input[p] != '"' {
        SectionHolds(input, p + 1, st, nameRoom, num);
      } else {
        var e := Entry(input, p, st, nameRoom, num);
        if e.Some? {
          var st' := e.value.1;
          SectionHolds(input, e.value.0, st', nameRoom, num);
          assert LoadFrom(input, pos, st, nameRoom, num, false) == LoadFrom(input, e.value.0, st', nameRoom, num, false);
        }
      }
    }
  }

  /** The closing lines of a saved preset: the end of the effects object,
      then the master volume. */
  function VolumeTail(rest: seq<char>): seq<char>
  {
    "  },\n  \"" + "volume" + "\"" + ": " + rest
  }

  /** Where the volume number starts in VolumeTail. */
  const VolumeAt: nat := 17

  /** As written, the volume of a saved preset is lost: after the effects
      object every number is read in the effects section, so none of the
      calls made from there on sets the volume. */
  lemma VolumeNotRestored(rest: seq<char>, st: Loader, nameRoom: nat, num: NumberScanner)
    requires st.section == "effects" && st.numbers == []
    requires forall i :: 0 <= i < |rest| ==> rest[i] != '{'
    ensures NoVolume(Calls(LoadFrom(VolumeTail(rest), 0, st, nameRoom, num, false).numbers))
  {
    var input := VolumeTail(rest);
    forall i | 0 <= i < |input|
      ensures input[i] != '{'
    {
      if i >= VolumeAt {
        assert input[i] == rest[i - VolumeAt];
      }
    }
    SectionHolds(input, 0, st, nameRoom, num);
    KnownSectionsKeepVolume(LoadFrom(input, 0, st, nameRoom, num, false).numbers);
  }

  /** With '}' closing the section, the same tail, with the number the
      writer puts after the key, is read at the top level: the next
      number met is the volume, and its call sets it. */
  lemma VolumeRestoredWithClose(rest: seq<char>, st: Loader, nameRoom: nat, num: NumberScanner)
    requires |rest| > 0 && ('0' <= rest[0] <= '9' || rest[0] == '-')
    ensures var input := VolumeTail(rest);
      var v := ScanNumber(num, input, VolumeAt).value;
      var r := LoadFrom(input, 0, st, nameRoom, num, true);
      st.numbers + [Numbered([], "volume", v)] <= r.numbers &&
      Dispatch([], "volume", v) == [Invoke(SetVolume, Real(v))]
  {
    VolumeReadWithClose(rest, st, nameRoom, num);
    VolumeOnlyOutsideSections([], "volume", ScanNumber(num, VolumeTail(rest), VolumeAt).value);
  }

  /** The numbers part of VolumeRestoredWithClose. */
  lemma VolumeReadWithClose(rest: seq<char>, st: Loader, nameRoom: nat, num: NumberScanner)
    requires |rest| > 0 && ('0' <= rest[0] <= '9' || rest[0] == '-')
    ensures var input := VolumeTail(rest);
      var v := ScanNumber(num, input, VolumeAt).value;
      st.numbers + [Numbered([], "volume", v)] <= LoadFrom(input, 0, st, nameRoom, num, true).numbers
  {
    var input := VolumeTail(rest);
    var top := st.(section := []);
    TailSkips(rest);
    var n := ScanNumber(num, input, VolumeAt);
    var after := top.(numbers := top.numbers + [Numbered([], "volume", n.value)]);
    var endAt: nat := VolumeAt + n.used;
    VolumeEntry(rest, top, nameRoom, num);
    LoadSteps(input, 0, st, nameRoom, num, true);
    LoadSteps(input, 3, top, nameRoom, num, true);
    LoadSteps(input, 4, top, nameRoom, num, true);
    NumbersGrow(input, endAt, after, nameRoom, num, true);
  }

  /** The volume key of VolumeTail, read at the top level, records the
      number after it. */
  lemma VolumeEntry(rest: seq<char>, top: Loader, nameRoom: nat, num: NumberScanner)
    requires |rest| > 0 && ('0' <= rest[0] <= '9' || rest[0] == '-')
    requires top.section == []
    ensures var input := VolumeTail(rest);
      var n := ScanNumber(num, input, VolumeAt);
      input[7] == '"' &&
      Entry(input, 7, top, nameRoom, num) ==
        Some((VolumeAt + n.used, top.(numbers := top.numbers + [Numbered([], "volume", n.value)])))
  {
    var input := VolumeTail(rest);
    TailSkips(rest);
    TailKey(rest);
    CStringOfPlain("volume");
    VolumeValue(rest, top, nameRoom, num);
    var k := ReadFrom(input, 8, [], KeySize - 1);
    assert k.status == 0 && k.next == 15 && CString(k.text) == "volume";
    assert Entry(input, 7, top, nameRoom, num) == Some(ValueStep(input, 16, CString(k.text), top, nameRoom, num));
  }

  /** The value of the volume key is read as a number. */
  lemma VolumeValue(rest: seq<char>, top: Loader, nameRoom: nat, num: NumberScanner)
    requires |rest| > 0 && ('0' <= rest[0] <= '9' || rest[0] == '-')
    requires top.section == []
    ensures var input := VolumeTail(rest);
      var n := ScanNumber(num, input, VolumeAt);
      ValueStep(input, 16, "volume", top, nameRoom, num) ==
        (VolumeAt + n.used, top.(numbers := top.numbers + [Numbered([], "volume", n.value)]))
  {
    TailSkips(rest);
  }

  /** The layout of VolumeTail around its key: the '}' at 2, the ','
      at 3, the opening quote at 7 and the number at VolumeAt. */
  lemma TailSkips(rest: seq<char>)
    requires |rest| > 0 && ('0' <= rest[0] <= '9' || rest[0] == '-')
    ensures var input := VolumeTail(rest);
      SkipSpace(input, 0) == 2 && input[2] == '}' && SkipSpace(input, 3) == 3 && input[3] == ',' &&
      SkipSpace(input, 4) == 7 && input[7] == '"' &&
      SkipSpace(input, 16) == VolumeAt && input[VolumeAt] != '{' && input[VolumeAt] != '"' &&
      ColonAfter(input, 15) == Some(16)
  {
    var input := VolumeTail(rest);
    assert input[..VolumeAt] == "  },\n  \"volume\": ";
    assert input[VolumeAt] == rest[0];
    assert SkipSpace(input, 2) == 2;
    assert SkipSpace(input, 1) == 2;
    assert SkipSpace(input, 7) == 7;
    assert SkipSpace(input, 6) == 7;
    assert SkipSpace(input, 5) == 7;
    assert SkipSpace(input, VolumeAt) == VolumeAt;
    assert input[15] == ':';
  }

  /** The key of VolumeTail reads as "volume". */
  lemma TailKey(rest: seq<char>)
    ensures ReadFrom(VolumeTail(rest), 8, [], KeySize - 1) == Read(0, "volume", 15)
  {
    var input := VolumeTail(rest);
    EscapePlain("volume");
    assert input == "  },\n  \"" + Escape("volume") + "\"" + (": " + rest);
    EscapeRoundTrip("volume", ": " + rest, "  },\n  \"", [], KeySize - 1);
  }

  /** The name line of a saved preset is read back: the value written by
      write_json_string becomes the name, cut to the name buffer. */
  lemma NameRoundTrip(value: seq<char>, rest: seq<char>, st: Loader, nameRoom: nat, num: NumberScanner)
    requires |CString(value)| <= ValueSize - 1
    ensures var line := KeyHeader("name") + Escape(CString(value)) + "\"";
      Entry(line + rest, 2, st, nameRoom, num) == Some((|line|, st.(name := Prefix(CString(value), nameRoom))))
  {
    var w := CString(value);
    var line := KeyHeader("name") + Escape(w) + "\"";
    var input := line + rest;
    NameLine(w, rest);
    NameValue(w, rest, st, nameRoom, num);
    var k := ReadFrom(input, 3, [], KeySize - 1);
    assert k.status == 0 && k.next == 8 && CString(k.text) == "name";
  }

  /** The layout of a name line: its key and colon, then the value. */
  lemma NameLine(w: seq<char>, rest: seq<char>)
    requires '\0' !in w && |w| <= ValueSize - 1
    ensures var header := KeyHeader("name");
      var input := header + Escape(w) + "\"" + rest;
      |header| == 11 && CString("name") == "name" &&
      ReadFrom(input, 3, [], KeySize - 1) == Read(0, "name", 8) &&
      ColonAfter(input, 8) == Some(9) &&
      SkipSpace(input, 9) == 10 && input[10] == '"' &&
      ReadFrom(input, 11, [], ValueSize - 1) == Read(0, w, |header + Escape(w) + "\""|)
  {
    var header := KeyHeader("name");
    Assoc(header, Escape(w), "\"");
    Assoc(header, Escape(w) + "\"", rest);
    HeaderKey("name", Escape(w) + "\"" + rest);
    EscapeRoundTrip(w, rest, header, [], ValueSize - 1);
  }

  /** The value of a name line becomes the name, cut to the buffer. */
  lemma NameValue(w: seq<char>, rest: seq<char>, st: Loader, nameRoom: nat, num: NumberScanner)
    requires '\0' !in w && |w| <= ValueSize - 1
    ensures var line := KeyHeader("name") + Escape(w) + "\"";
      var input := line + rest;
      ValueStep(input, 9, "name", st, nameRoom, num) == (|line|, st.(name := Prefix(w, nameRoom)))
  {
    NameLine(w, rest);
    CStringOfPlain(w);
  }

  /** A key written by write_json_string reads back as itself, its colon
      follows it, and a space and the value's opening quote come next. */
  lemma HeaderKey(key: seq<char>, tail: seq<char>)
    requires '\0' !in key && '"' !in key && '\\' !in key && |key| <= KeySize - 1
    ensures var input := KeyHeader(key) + tail;
      |KeyHeader(key)| == |key| + 7 && CString(key) == key &&
      ReadFrom(input, 3, [], KeySize - 1) == Read(0, key, |key| + 4) &&
      ColonAfter(input, |key| + 4) == Some(|key| + 5) &&
      SkipSpace(input, |key| + 5) == |key| + 6 && input[|key| + 6] == '"'
  {
    CStringOfPlain(key);
    EscapePlain(key);
    var input := KeyHeader(key) + tail;
    var open := "  \"" + key;
    assert KeyHeader(key) == open + "\": \"";
    assert "\": \"" == "\"" + ": \"";
    Assoc(open, "\"", ": \"");
    Assoc(open + "\"", ": \"", tail);
    EscapeRoundTrip(key, ": \"" + tail, "  \"", [], KeySize - 1);
    assert input[|key| + 4] == ':';
    assert input[|key| + 5] == ' ';
    assert SkipSpace(input, |key| + 6) == |key| + 6;
  }

  // ---------------------------------------------------------------------
  // The recorded calls applied to the Synth

  /** A WaveType cast from an int, in the enum order of oscillator.h. */
  function WaveShapeOf(n: int): Oscillators.WaveShape
  {
    if n == 0 then Oscillators.Sine
    else if n == 1 then Oscillators.Square
    else if n == 2 then Oscillators.Saw
    else if n == 3 then Oscillators.Triangle
    else if n == 4 then Oscillators.Noise
    else Oscillators.Unrecognised(n)
  }

  /** A FilterType cast from an int, in the enum order of filter.h. */
  function FilterTypeOf(n: int): Filters.FilterType
  {
    if n == 0 then Filters.Lowpass
    else if n == 1 then Filters.Highpass
    else if n == 2 then Filters.Bandpass
    else Filters.Unrecognised(n)
  }

  /** What one recorded call does to the fields of the Synth: the synth_*
      setters that synth.c defines, and the direct stores into the filter
      and amp-envelope fields with the synth_set_filter or synth_set_adsr
      call that follows them. A call to a setter defined elsewhere, and a
      store into an Effects or Arpeggiator field, leaves the Synth as it
      was. */
  function AppliedTo(c: Call, s: Synths.SynthState, m: Libm): Synths.SynthState
  {
    match c
    case Invoke(SetWaveType, Whole(n)) => s.WithWaveType(WaveShapeOf(n))
    case Invoke(SetWaveType2, Whole(n)) => s.WithWaveType2(WaveShapeOf(n))
    case Invoke(SetOscMix, Real(x)) => s.WithOscMix(x)
    case Invoke(SetOsc2Detune, Real(x)) => s.WithOsc2Detune(x)
    case Invoke(SetVolume, Real(x)) => s.WithVolume(x)
    case Store(FilterTypeField, Whole(n)) => s.(filterType := FilterTypeOf(n))
    case Store(FilterCutoff, Real(x)) => s.(filterCutoff := x)
    case Store(FilterResonance, Real(x)) => s.(filterResonance := x)
    case Store(Attack, Real(x)) => s.(attack := x)
    case Store(Decay, Real(x)) => s.(decay := x)
    case Store(Sustain, Real(x)) => s.(sustain := x)
    case Store(Release, Real(x)) => s.(release := x)
    case Reapply(FilterGroup) => s.WithFilter(m, s.filterCutoff, s.filterResonance, s.filterType)
    case Reapply(AmpEnvGroup) => s.WithAdsr(s.attack, s.decay, s.sustain, s.release)
    case _ => s
  }

  /** The calls applied to the Synth one after another. */
  function Applied(calls: seq<Call>, s: Synths.SynthState, m: Libm): Synths.SynthState
    decreases |calls|
  {
    if calls == [] then s else Applied(calls[1..], AppliedTo(calls[0], s, m), m)
  }

  /** Applying two call lists in turn is applying their concatenation. */
  lemma {:induction false} AppliedAppend(a: seq<Call>, b: seq<Call>, s: Synths.SynthState, m: Libm)
    ensures Applied(a + b, s, m) == Applied(b, Applied(a, s, m), m)
    decreases |a|
  {
    if a != [] {
      assert (a + b)[1..] == a[1..] + b;
      AppliedAppend(a[1..], b, AppliedTo(a[0], s, m), m);
    } else {
      assert a + b == b;
    }
  }

  /** A recorded SetVolume call does what synth_set_volume does. */
  lemma VolumeCallSetsVolume(v: real, s: Synths.SynthState, m: Libm)
    ensures Applied([Invoke(SetVolume, Real(v))], s, m) == s.WithVolume(v)
    ensures Applied([Invoke(SetVolume, Real(v))], s, m).volume == Clamp(v, 0.0, 1.0)
  {
  }

  /** Every call other than SetVolume leaves the master volume alone. */
  lemma OtherCallKeepsVolume(c: Call, s: Synths.SynthState, m: Libm)
    requires !(c.Invoke? && c.setter == SetVolume)
    ensures AppliedTo(c, s, m).volume == s.volume
  {
  }

  /** A call list without a volume call leaves the master volume alone. */
  lemma {:induction false} NoVolumeKeepsVolume(calls: seq<Call>, s: Synths.SynthState, m: Libm)
    requires NoVolume(calls)
    ensures Applied(calls, s, m).volume == s.volume
    decreases |calls|
  {
    if calls != [] {
      OtherCallKeepsVolume(calls[0], s, m);
      assert NoVolume(calls[1..]) by {
        forall i | 0 <= i < |calls| - 1
          ensures !(calls[1..][i].Invoke? && calls[1..][i].setter == SetVolume)
        {
          assert calls[1..][i] == calls[i + 1];
        }
      }
      NoVolumeKeepsVolume(calls[1..], AppliedTo(calls[0], s, m), m);
    }
  }

  /** As written, the calls made for the saved tail leave the synth's
      master volume at whatever it was when the effects section began. */
  lemma SavedVolumeIgnored(rest: seq<char>, st: Loader, nameRoom: nat, num: NumberScanner,
                           s: Synths.SynthState, m: Libm)
    requires st.section == "effects" && st.numbers == []
    requires forall i :: 0 <= i < |rest| ==> rest[i] != '{'
    ensures Applied(Calls(LoadFrom(VolumeTail(rest), 0, st, nameRoom, num, false).numbers), s, m).volume == s.volume
  {
    VolumeNotRestored(rest, st, nameRoom, num);
    NoVolumeKeepsVolume(Calls(LoadFrom(VolumeTail(rest), 0, st, nameRoom, num, false).numbers), s, m);
  }

  /** With '}' closing the section, the calls up to and including the
      tail's volume number leave the synth's master volume at the saved
      value, clamped to [0, 1] as synth_set_volume clamps it. */
  lemma SavedVolumeApplied(rest: seq<char>, st: Loader, nameRoom: nat, num: NumberScanner,
                           s: Synths.SynthState, m: Libm)
    requires |rest| > 0 && ('0' <= rest[0] <= '9' || rest[0] == '-')
    ensures var v := ScanNumber(num, VolumeTail(rest), VolumeAt).value;
      var upTo := st.numbers + [Numbered([], "volume", v)];
      upTo <= LoadFrom(VolumeTail(rest), 0, st, nameRoom, num, true).numbers &&
      Applied(Calls(upTo), s, m).volume == Clamp(v, 0.0, 1.0)
  {
    var v := ScanNumber(num, VolumeTail(rest), VolumeAt).value;
    var upTo := st.numbers + [Numbered([], "volume", v)];
    VolumeRestoredWithClose(rest, st, nameRoom, num);
    CallsStep(st.numbers, upTo);
    assert upTo[|st.numbers|] == Numbered([], "volume", v);
    AppliedAppend(Calls(st.numbers), [Invoke(SetVolume, Real(v))], s, m);
    VolumeCallSetsVolume(v, Applied(Calls(st.numbers), s, m), m);
  }
}
