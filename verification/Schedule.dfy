/** Transmission scenarios: the dashboard policy's validation and the expected-pulse expansion. */
module Schedule {
  import opened Prelude

  const PREAMBLE_PULSES := 16
  const PULSE_PERIOD := 6500
  const MAX_OBSERVED := 512
  const UINT64_MAX := 0xFFFF_FFFF_FFFF_FFFF

  datatype Role = PreambleRole | BodyRole | OtherRole
  datatype Pulse = Pulse(frequency: nat, value: nat, role: Role)
  datatype Message = Message(id: nat, start: nat, pulses: seq<Pulse>)

  /** An optional number or flag of the scenario, which may have the wrong type. */
  datatype Setting = NoNumber | Numeric(value: real) | NotNumeric
  datatype Flag = NoFlag | Boolean(on: bool) | NotBoolean

  /** The fixed protocol numbers, the unsupported features, and whether the generator accepts the
      scenario as its own configuration. */
  datatype Settings = Settings(sampleRate: Setting, bitRate: Setting, bitsPerPulse: Setting, pulseGap: Setting,
                               noise: Flag, multipath: Flag, observation: Flag, generatorAccepts: bool)

  datatype Scenario = Scenario(messages: seq<Message>, allowOverlap: bool, settings: Settings)

  datatype Code =
    | MissingMessages | InvalidActiveSet | DuplicateId | InvalidPulseCount | InvalidPreambleLength | PreambleMismatch | FrequencyOutOfRange
    | PayloadNotActive | InvalidRole | WordInconsistent | WindowOverflow | MessagesOverlap
    | UnsupportedSampleRate | UnsupportedBitRate | UnsupportedBitsPerPulse | UnsupportedPulseGap | UnsupportedFeature
    | InvalidObservationFlag | GeneratorRefuses

  // ---- Preamble and active set -------------------------------------------------------------------------

  datatype Tone = Tone(frequency: nat, word: nat)

  function Leading(pulses: seq<Pulse>): (r: seq<Pulse>)
    ensures |r| <= |pulses| && |r| <= PREAMBLE_PULSES
  {
    if |pulses| <= PREAMBLE_PULSES then pulses else pulses[..PREAMBLE_PULSES]
  }

  function Tones(pulses: seq<Pulse>): (r: seq<Tone>)
    ensures |r| == |pulses| && forall i :: 0 <= i < |r| ==> r[i] == Tone(pulses[i].frequency, pulses[i].value)
  {
    seq(|pulses|, i requires 0 <= i < |pulses| => Tone(pulses[i].frequency, pulses[i].value))
  }

  /** The projection of the first message's preamble; empty without messages. */
  function Preamble(s: Scenario): seq<Tone> {
    if s.messages == [] then [] else Tones(Leading(s.messages[0].pulses))
  }

  function FirstOccurrences(tones: seq<Tone>): seq<nat> {
    if tones == [] then []
    else
      var r, last := FirstOccurrences(tones[..|tones| - 1]), tones[|tones| - 1].frequency;
      if last in r then r else r + [last]
  }

  /** Every frequency, once. */
  lemma {:induction false} FirstOccurrencesOnce(tones: seq<Tone>)
    ensures forall f :: f in FirstOccurrences(tones) <==> exists t :: t in tones && t.frequency == f
    ensures forall i, j :: 0 <= i < j < |FirstOccurrences(tones)| ==> FirstOccurrences(tones)[i] != FirstOccurrences(tones)[j]
  {
    if tones != [] {
      var front, last := tones[..|tones| - 1], tones[|tones| - 1];
      assert tones == front + [last];
      FirstOccurrencesOnce(front);
    }
  }

  /** In the order in which they first occur: before the first occurrence of an entry stand exactly the
      entries before it. */
  lemma {:induction false} FirstOccurrencesInOrder(tones: seq<Tone>, i: nat)
    requires i < |FirstOccurrences(tones)|
    ensures exists k :: 0 <= k < |tones| && tones[k].frequency == FirstOccurrences(tones)[i]
                        && FirstOccurrences(tones[..k]) == FirstOccurrences(tones)[..i]
  {
    var n := |tones| - 1;
    var front := tones[..n];
    if i < |FirstOccurrences(front)| {
      FirstOccurrencesInOrder(front, i);
      var k :| 0 <= k < n && front[k].frequency == FirstOccurrences(front)[i] && FirstOccurrences(front[..k]) == FirstOccurrences(front)[..i];
      assert front[..k] == tones[..k] && tones[k] == front[k];
    } else {
      assert tones[n].frequency == FirstOccurrences(tones)[i] && FirstOccurrences(tones)[..i] == FirstOccurrences(front);
    }
  }

  function ActiveSet(s: Scenario): seq<nat> { FirstOccurrences(Preamble(s)) }

  method ComputePreamble(s: Scenario) returns (r: seq<Tone>)
    ensures r == Preamble(s)
    ensures s.messages == [] ==> r == []
    ensures s.messages != [] ==>
      var pulses := s.messages[0].pulses;
      && |r| == (if |pulses| < 16 then |pulses| else 16)
      && forall i :: 0 <= i < |r| ==> r[i].frequency == pulses[i].frequency && r[i].word == pulses[i].value
  {
    r := [];
    if s.messages == [] {
      return;
    }
    var pulses := s.messages[0].pulses;
    var count := if |pulses| < PREAMBLE_PULSES then |pulses| else PREAMBLE_PULSES;
    for i := 0 to count
      invariant |r| == i && forall k :: 0 <= k < i ==> r[k] == Tone(pulses[k].frequency, pulses[k].value)
    {
      r := r + [Tone(pulses[i].frequency, pulses[i].value)];
    }
  }

  method ComputeActiveSet(s: Scenario) returns (unique: seq<nat>)
    ensures unique == ActiveSet(s)
  {
    var preamble := ComputePreamble(s);
    var seen: set<nat> := {};
    unique := [];
    for i := 0 to |preamble|
      invariant unique == FirstOccurrences(preamble[..i]) && forall f :: f in seen <==> f in unique
    {
      assert preamble[..i + 1][..i] == preamble[..i];
      var frequency := preamble[i].frequency;
      if frequency !in seen {
        seen := seen + {frequency};
        unique := unique + [frequency];
      }
    }
    assert preamble[..|preamble|] == preamble;
  }

  // ---- What Validate accepts ---------------------------------------------------------------------------

  function End(m: Message): nat { m.start + |m.pulses| * PULSE_PERIOD }

  ghost predicate Apart(a: Message, b: Message) { End(a) <= b.start || End(b) <= a.start }

  ghost predicate PairwiseApart(ms: seq<Message>) {
    forall i, j :: 0 <= i < j < |ms| ==> Apart(ms[i], ms[j])
  }

  ghost predicate UniqueIds(ms: seq<Message>) {
    forall i, j :: 0 <= i < j < |ms| ==> ms[i].id != ms[j].id
  }

  ghost predicate PulseOk(active: seq<nat>, p: Pulse, index: nat) {
    && 1 <= p.frequency <= 62
    && (index >= PREAMBLE_PULSES ==> p.frequency in active)
    && p.role == if index < PREAMBLE_PULSES then PreambleRole else BodyRole
  }

  ghost predicate MessageOk(golden: seq<Tone>, active: seq<nat>, m: Message) {
    && PREAMBLE_PULSES <= |m.pulses| <= 256
    && Tones(Leading(m.pulses)) == golden
    && (forall i :: 0 <= i < |m.pulses| ==> PulseOk(active, m.pulses[i], i))
    && End(m) <= UINT64_MAX
  }

  /** One word per preamble frequency. */
  ghost predicate OneWordEach(tones: seq<Tone>) {
    forall a, b :: a in tones && b in tones && a.frequency == b.frequency ==> a.word == b.word
  }

  /** Absent, or exactly the protocol's number. */
  predicate Exact(x: Setting, expected: real) { x.NoNumber? || x == Numeric(expected) }

  predicate SettingsOk(s: Settings) {
    && Exact(s.sampleRate, 500000000.0) && Exact(s.bitRate, 5000000.0) && Exact(s.bitsPerPulse, 32.0)
    && Exact(s.pulseGap, 0.0000066) && IsOff(s.noise) && IsOff(s.multipath) && !s.observation.NotBoolean? && s.generatorAccepts
  }

  ghost predicate Valid(s: Scenario) {
    && SettingsOk(s.settings)
    && s.messages != [] && |ActiveSet(s)| == 4
    && UniqueIds(s.messages)
    && (forall m <- s.messages :: MessageOk(Preamble(s), ActiveSet(s), m))
    && OneWordEach(Preamble(s))
    && (s.allowOverlap || PairwiseApart(s.messages))
  }

  // ---- Which check fails -----------------------------------------------------------------------------------

  /** A pulse that breaks the rule of this code. */
  ghost predicate PulseRaises(active: seq<nat>, p: Pulse, index: nat, code: Code) {
    match code
    case FrequencyOutOfRange => p.frequency < 1 || p.frequency > 62
    case PayloadNotActive => index >= 16 && p.frequency !in active
    case InvalidRole => p.role != (if index < 16 then PreambleRole else BodyRole)
    case _ => false
  }

  /** A message that breaks the rule of this code by itself. */
  ghost predicate MessageRaises(golden: seq<Tone>, active: seq<nat>, m: Message, code: Code) {
    || (exists i :: 0 <= i < |m.pulses| && PulseRaises(active, m.pulses[i], i, code))
    || (code == InvalidPulseCount && (|m.pulses| < 16 || |m.pulses| > 256))
    || (code == InvalidPreambleLength && |m.pulses| < 16)
    || (code == PreambleMismatch && |m.pulses| >= 16 && Tones(Leading(m.pulses)) != golden)
    || (code == WindowOverflow && m.start + 6500 * |m.pulses| > UINT64_MAX)
  }

  /** The leading pulses of all messages, in order. */
  ghost function AllLeading(ms: seq<Message>): seq<Tone> {
    if ms == [] then [] else AllLeading(ms[..|ms| - 1]) + Tones(Leading(ms[|ms| - 1].pulses))
  }

  /** The messages together break the rule of this code. */
  ghost predicate MessagesRaise(golden: seq<Tone>, active: seq<nat>, ms: seq<Message>, code: Code) {
    || (exists m :: m in ms && MessageRaises(golden, active, m, code))
    || (code == DuplicateId && !UniqueIds(ms))
    || (code == WordInconsistent && !OneWordEach(AllLeading(ms)))
  }

  ghost predicate NumbersRaise(s: Settings, code: Code) {
    || (code == UnsupportedSampleRate && !Exact(s.sampleRate, 500000000.0))
    || (code == UnsupportedBitRate && !Exact(s.bitRate, 5000000.0))
    || (code == UnsupportedBitsPerPulse && !Exact(s.bitsPerPulse, 32.0))
    || (code == UnsupportedPulseGap && !Exact(s.pulseGap, 0.0000066))
  }

  predicate IsOff(f: Flag) { f.NoFlag? || f == Boolean(false) }

  ghost predicate FlagsRaise(s: Settings, code: Code) {
    || (code == InvalidObservationFlag && s.observation.NotBoolean?)
    || (code == UnsupportedFeature && !(IsOff(s.noise) && IsOff(s.multipath)))
    || (code == GeneratorRefuses && !s.generatorAccepts)
  }

  ghost predicate SettingsRaise(s: Settings, code: Code) { NumbersRaise(s, code) || FlagsRaise(s, code) }

  // ---- Validate ------------------------------------------------------------------------------------------

  method CheckPulses(active: seq<nat>, m: Message) returns (errors: seq<Code>)
    ensures errors == [] <==> forall i :: 0 <= i < |m.pulses| ==> PulseOk(active, m.pulses[i], i)
    ensures forall code :: code in errors <==> exists i :: 0 <= i < |m.pulses| && PulseRaises(active, m.pulses[i], i, code)
  {
    errors := [];
    for i := 0 to |m.pulses|
      invariant errors == [] <==> forall k :: 0 <= k < i ==> PulseOk(active, m.pulses[k], k)
      invariant forall code :: code in errors <==> exists k :: 0 <= k < i && PulseRaises(active, m.pulses[k], k, code)
    {
      var p := m.pulses[i];
      ghost var before := errors;
      if p.frequency < 1 || p.frequency > 62 {
        errors := errors + [FrequencyOutOfRange];
      }
      if i >= PREAMBLE_PULSES && p.frequency !in active {
        errors := errors + [PayloadNotActive];
      }
      if p.role != (if i < PREAMBLE_PULSES then PreambleRole else BodyRole) {
        errors := errors + [InvalidRole];
      }
      assert forall code :: code in errors <==> code in before || PulseRaises(active, m.pulses[i], i, code);
    }
  }

  /** The checks of one message, without the word table. */
  method CheckMessage(golden: seq<Tone>, active: seq<nat>, m: Message) returns (errors: seq<Code>)
    ensures errors == [] <==> MessageOk(golden, active, m)
    ensures forall code :: code in errors <==> MessageRaises(golden, active, m, code)
  {
    errors := [];
    if |m.pulses| < PREAMBLE_PULSES || |m.pulses| > 256 {
      errors := errors + [InvalidPulseCount];
    }
    if |m.pulses| < PREAMBLE_PULSES {
      errors := errors + [InvalidPreambleLength];
    }
    if |m.pulses| >= PREAMBLE_PULSES && Tones(Leading(m.pulses)) != golden {
      errors := errors + [PreambleMismatch];
    }
    var more := CheckPulses(active, m);
    errors := errors + more;
    if |m.pulses| > UINT64_MAX / PULSE_PERIOD {
      errors := errors + [WindowOverflow];
      return;
    }
    var duration := |m.pulses| * PULSE_PERIOD;
    if m.start > UINT64_MAX - duration {
      errors := errors + [WindowOverflow];
    }
  }

  /** `preamble_words`: the first word seen for each frequency is binding. */
  method CheckWords(words: map<nat, nat>, tones: seq<Tone>, ghost seen: seq<Tone>)
    returns (words': map<nat, nat>, errors: seq<Code>)
    requires Records(words, seen)
    ensures Records(words', seen + tones)
    ensures OneWordEach(seen) ==> (errors == [] <==> OneWordEach(seen + tones))
    ensures forall code :: code in errors ==> code == WordInconsistent
  {
    words', errors := words, [];
    assert seen + tones[..0] == seen;
    for i := 0 to |tones|
      invariant Records(words', seen + tones[..i])
      invariant OneWordEach(seen) ==> (errors == [] <==> OneWordEach(seen + tones[..i]))
      invariant forall code :: code in errors ==> code == WordInconsistent
    {
      var t := tones[i];
      assert seen + tones[..i + 1] == (seen + tones[..i]) + [t];
      RecordsOne(words', seen + tones[..i], t);
      if t.frequency !in words' {
        words' := words'[t.frequency := t.word];
      } else if words'[t.frequency] != t.word {
        errors := errors + [WordInconsistent];
      }
    }
    assert tones[..|tones|] == tones;
  }

  ghost predicate Records(words: map<nat, nat>, seen: seq<Tone>) {
    && (forall t <- seen :: t.frequency in words)
    && (forall f <- words :: Tone(f, words[f]) in seen)
  }

  lemma RecordsOne(words: map<nat, nat>, seen: seq<Tone>, t: Tone)
    requires Records(words, seen)
    ensures Records(if t.frequency in words then words else words[t.frequency := t.word], seen + [t])
    ensures OneWordEach(seen) ==>
      (OneWordEach(seen + [t]) <==> (t.frequency in words ==> words[t.frequency] == t.word))
    ensures !OneWordEach(seen) ==> !OneWordEach(seen + [t])
  {
    var all := seen + [t];
    assert forall x :: x in all <==> x in seen || x == t;
    if t.frequency in words { assert Tone(t.frequency, words[t.frequency]) in all; }
    if OneWordEach(seen) && (t.frequency in words ==> words[t.frequency] == t.word) {
      forall a, b | a in all && b in all && a.frequency == b.frequency ensures a.word == b.word {
        assert a in seen ==> a.frequency in words && Tone(a.frequency, words[a.frequency]) in seen;
        assert b in seen ==> b.frequency in words && Tone(b.frequency, words[b.frequency]) in seen;
      }
    }
  }

  datatype Window = Window(begin: nat, end: nat, index: nat)

  function WindowOf(m: Message, index: nat): Window { Window(m.start, End(m), index) }

  predicate Earlier(a: Window, b: Window) { a.begin <= b.begin }

  ghost predicate Nonempty(ws: seq<Window>) { forall w <- ws :: w.begin < w.end }

  ghost predicate Disjoint(ws: seq<Window>) {
    forall a, b :: a in ws && b in ws && a != b ==> a.end <= b.begin || b.end <= a.begin
  }

  /** Sort by start, then compare neighbours: no error if and only if the windows are pairwise
      disjoint. */
  method CheckOverlap(windows: seq<Window>) returns (errors: seq<Code>)
    requires NoRepeats(windows)
    ensures Nonempty(windows) ==> (errors == [] <==> Disjoint(windows))
    ensures forall code :: code in errors ==> code == MessagesOverlap
  {
    hide Nonempty, NoRepeats, Disjoint;
    assert TotalPreorder(Earlier);
    var sorted := Sort(windows, Earlier);
    errors := [];
    var i := 1;
    while i < |sorted|
      invariant 1 <= i <= |sorted| + 1
      invariant errors == [] <==> forall k :: 0 < k < i && k < |sorted| ==> sorted[k - 1].end <= sorted[k].begin
      invariant forall code :: code in errors ==> code == MessagesOverlap
    {
      if sorted[i].begin < sorted[i - 1].end {
        errors := errors + [MessagesOverlap];
      }
      i := i + 1;
    }
    Rearranged(windows, sorted);
    SameWindows(windows, sorted);
    if Nonempty(windows) {
      NeighboursSuffice(sorted);
    }
  }

  lemma SameWindows(s: seq<Window>, r: seq<Window>)
    requires forall w :: w in r <==> w in s
    ensures (Nonempty(s) <==> Nonempty(r)) && (Disjoint(s) <==> Disjoint(r))
  {
  }

  lemma NeighboursSuffice(ws: seq<Window>)
    requires Ordered(Earlier, ws) && Nonempty(ws) && NoRepeats(ws)
    ensures (forall k :: 0 < k < |ws| ==> ws[k - 1].end <= ws[k].begin) <==> Disjoint(ws)
  {
    if forall k :: 0 < k < |ws| ==> ws[k - 1].end <= ws[k].begin {
      forall i, j | 0 <= i < j < |ws| ensures ws[i].end <= ws[j].begin {
        assert ws[i].end <= ws[i + 1].begin && (i + 1 < j ==> Earlier(ws[i + 1], ws[j]));
      }
    }
    if Disjoint(ws) {
      forall k | 0 < k < |ws| ensures ws[k - 1].end <= ws[k].begin {
        assert Earlier(ws[k - 1], ws[k]) && ws[k - 1] in ws && ws[k] in ws && ws[k - 1] != ws[k];
      }
    }
  }

  /** The windows of the messages so far. */
  ghost predicate WindowsOf(windows: seq<Window>, ms: seq<Message>) {
    |windows| == |ms| && forall i :: 0 <= i < |ms| ==> windows[i] == WindowOf(ms[i], i)
  }

  lemma WindowsDisjoint(windows: seq<Window>, ms: seq<Message>)
    requires WindowsOf(windows, ms)
    ensures Disjoint(windows) <==> PairwiseApart(ms)
  {
    if PairwiseApart(ms) {
      forall a, b | a in windows && b in windows && a != b ensures a.end <= b.begin || b.end <= a.begin {
        var i :| 0 <= i < |windows| && windows[i] == a;
        var j :| 0 <= j < |windows| && windows[j] == b;
        assert if i < j then Apart(ms[i], ms[j]) else Apart(ms[j], ms[i]);
      }
    }
    if Disjoint(windows) {
      forall i, j | 0 <= i < j < |ms| ensures Apart(ms[i], ms[j]) {
        assert windows[i] in windows && windows[j] in windows && windows[i] != windows[j];
      }
    }
  }

  /** The word checks of all messages together come to the word check of the common preamble. */
  lemma SameTones(golden: seq<Tone>, seen: seq<Tone>)
    requires forall t :: t in seen <==> t in golden
    ensures OneWordEach(seen) <==> OneWordEach(golden)
  {
  }

  method CheckNumbers(s: Settings) returns (errors: seq<Code>)
    ensures forall code :: code in errors <==> NumbersRaise(s, code)
  {
    hide Exact;
    var rate := CheckExact(s.sampleRate, 500000000.0, UnsupportedSampleRate);
    var bits := CheckExact(s.bitRate, 5000000.0, UnsupportedBitRate);
    var width := CheckExact(s.bitsPerPulse, 32.0, UnsupportedBitsPerPulse);
    var gap := CheckExact(s.pulseGap, 0.0000066, UnsupportedPulseGap);
    errors := rate + bits + width + gap;
    assert forall code :: code in errors <==> code in rate || code in bits || code in width || code in gap;
  }

  method CheckFlags(s: Settings) returns (errors: seq<Code>)
    ensures forall code :: code in errors <==> FlagsRaise(s, code)
  {
    errors := if s.observation == NotBoolean then [InvalidObservationFlag] else [];
    if (s.noise != NoFlag && s.noise != Boolean(false)) || (s.multipath != NoFlag && s.multipath != Boolean(false)) {
      errors := errors + [UnsupportedFeature];
    }
    if !s.generatorAccepts {
      errors := errors + [GeneratorRefuses];
    }
  }

  /** Numbers and flags, each with its own code. */
  method CheckSettings(s: Settings) returns (errors: seq<Code>)
    ensures errors == [] <==> SettingsOk(s)
    ensures forall code :: code in errors <==> SettingsRaise(s, code)
  {
    var flags := CheckFlags(s);
    var numbers := CheckNumbers(s);
    OkRaisesNothing(s);
    hide NumbersRaise, FlagsRaise, SettingsOk;
    errors := flags + numbers;
    assert forall code :: code in errors <==> code in flags || code in numbers;
    if errors != [] {
      FirstIsMember(errors);
      assert NumbersRaise(s, errors[0]) || FlagsRaise(s, errors[0]);
    }
  }

  lemma OkRaisesNothing(s: Settings)
    ensures SettingsOk(s) <==> (forall code :: !NumbersRaise(s, code)) && (forall code :: !FlagsRaise(s, code))
  {
    hide Exact;
    if (forall code :: !NumbersRaise(s, code)) && (forall code :: !FlagsRaise(s, code)) {
      assert !NumbersRaise(s, UnsupportedSampleRate) && !NumbersRaise(s, UnsupportedBitRate);
      assert !NumbersRaise(s, UnsupportedBitsPerPulse) && !NumbersRaise(s, UnsupportedPulseGap);
      assert !FlagsRaise(s, InvalidObservationFlag) && !FlagsRaise(s, UnsupportedFeature) && !FlagsRaise(s, GeneratorRefuses);
    }
  }

  /** The `exact_number` check: an absent value passes. */
  method CheckExact(x: Setting, expected: real, code: Code) returns (errors: seq<Code>)
    ensures errors == if Exact(x, expected) then [] else [code]
  {
    errors := if x != NoNumber && x != Numeric(expected) then [code] else [];
  }

  /** The schedule as a whole breaks the rule of this code. */
  ghost predicate ScenarioRaises(s: Scenario, code: Code) {
    if s.messages == [] then code == MissingMessages || (code == InvalidObservationFlag && s.settings.observation.NotBoolean?)
    else
      || SettingsRaise(s.settings, code) || MessagesRaise(Preamble(s), ActiveSet(s), s.messages, code)
      || (code == InvalidActiveSet && |ActiveSet(s)| != 4)
  }

  /** No error if and only if the scenario is valid; and every code but the overlap is reported if and
      only if its rule is broken. The overlap is reported only if it is forbidden, and, when nothing
      else is wrong, if and only if two windows meet. */
  method Validate(s: Scenario) returns (errors: seq<Code>)
    ensures errors == [] <==> Valid(s)
    ensures forall code :: code != MessagesOverlap ==> (code in errors <==> ScenarioRaises(s, code))
    ensures MessagesOverlap in errors ==> !s.allowOverlap
    ensures (forall code :: !ScenarioRaises(s, code)) ==> (MessagesOverlap in errors <==> !s.allowOverlap && !PairwiseApart(s.messages))
  {
    hide SettingsOk, MessageOk, OneWordEach, Disjoint, PairwiseApart, Records, Nonempty, WindowsOf, Preamble, ActiveSet,
      SettingsRaise, MessagesRaise;
    if s.messages == [] {
      assert ScenarioRaises(s, MissingMessages);
      return (if s.settings.observation == NotBoolean then [InvalidObservationFlag] else []) + [MissingMessages];
    }
    var active := ComputeActiveSet(s);
    var golden := ComputePreamble(s);
    var windows;
    errors, windows := CheckMessages(golden, active, s.messages);
    var unsupported := CheckSettings(s.settings);
    errors := errors + unsupported;
    if |active| != 4 {
      errors := errors + [InvalidActiveSet];
    }
    assert forall code :: code in errors <==> ScenarioRaises(s, code);
    NeverOverlap(s);
    ghost var others := errors;
    if others != [] { FirstIsMember(others); assert ScenarioRaises(s, others[0]); }
    if !s.allowOverlap {
      var overlaps := CheckOverlap(windows);
      if errors == [] {
        WindowsNonempty(golden, active, windows, s.messages);
        WindowsDisjoint(windows, s.messages);
      }
      FirstIsMember(overlaps);
      errors := errors + overlaps;
      assert forall code :: code in errors <==> code in others || code in overlaps;
    }
  }

  lemma NeverOverlap(s: Scenario)
    ensures !ScenarioRaises(s, MessagesOverlap)
  {
  }

  lemma WindowsNonempty(golden: seq<Tone>, active: seq<nat>, windows: seq<Window>, ms: seq<Message>)
    requires WindowsOf(windows, ms) && forall m <- ms :: MessageOk(golden, active, m)
    ensures Nonempty(windows)
  {
    forall i | 0 <= i < |windows| ensures windows[i].begin < windows[i].end {
      assert MessageOk(golden, active, ms[i]);
    }
  }

  ghost predicate AllOk(golden: seq<Tone>, active: seq<nat>, ms: seq<Message>) {
    UniqueIds(ms) && forall m <- ms :: MessageOk(golden, active, m)
  }

  function Ids(ms: seq<Message>): set<nat> { set m <- ms :: m.id }

  lemma AllOkGrows(golden: seq<Tone>, active: seq<nat>, ms: seq<Message>, m: Message)
    ensures AllOk(golden, active, ms + [m]) <==> AllOk(golden, active, ms) && MessageOk(golden, active, m) && m.id !in Ids(ms)
    ensures Ids(ms + [m]) == Ids(ms) + {m.id}
  {
    hide MessageOk;
    var all := ms + [m];
    assert forall x :: x in all <==> x in ms || x == m;
    forall i | 0 <= i < |ms| ensures ms[i].id in Ids(ms) && all[i] == ms[i] { assert ms[i] in ms; }
    if UniqueIds(all) {
      assert forall i, j :: 0 <= i < j < |ms| ==> ms[i] == all[i] && ms[j] == all[j];
      forall x <- ms ensures x.id != m.id {
        var i :| 0 <= i < |ms| && ms[i] == x;
        assert all[i].id != all[|ms|].id;
      }
    }
  }

  ghost predicate Indexed(windows: seq<Window>, bound: nat) {
    NoRepeats(windows) && forall w <- windows :: w.index < bound
  }

  lemma WindowsGrow(windows: seq<Window>, ms: seq<Message>, m: Message)
    requires Indexed(windows, |ms|)
    ensures Indexed(windows + [WindowOf(m, |ms|)], |ms| + 1) && Indexed(windows, |ms| + 1)
    ensures WindowsOf(windows, ms) ==> WindowsOf(windows + [WindowOf(m, |ms|)], ms + [m])
  {
  }

  method CheckMessages(golden: seq<Tone>, active: seq<nat>, ms: seq<Message>)
    returns (errors: seq<Code>, windows: seq<Window>)
    requires ms != []
    ensures errors == [] <==> AllOk(golden, active, ms) && OneWordEach(golden)
    ensures errors == [] ==> WindowsOf(windows, ms)
    ensures NoRepeats(windows)
    ensures forall code :: code in errors <==> MessagesRaise(golden, active, ms, code)
  {
    hide MessageOk, OneWordEach, Records, AllOk, WindowsOf, NoRepeats, Ids, MessagesRaise, MessageRaises, AllLeading;
    errors, windows := [], [];
    var ids: set<nat>, words: map<nat, nat> := {}, map[];
    ghost var seen: seq<Tone> := [];
    NothingChecked(golden, active);
    assert ms[..0] == [];
    for i := 0 to |ms|
      invariant errors == [] <==> AllOk(golden, active, ms[..i]) && OneWordEach(seen)
      invariant AllOk(golden, active, ms[..i]) && i > 0 ==> forall t :: t in seen <==> t in golden
      invariant Records(words, seen) && ids == Ids(ms[..i]) && (i == 0 ==> seen == [])
      invariant errors == [] ==> WindowsOf(windows, ms[..i])
      invariant Indexed(windows, i)
      invariant seen == AllLeading(ms[..i])
      invariant forall code :: code in errors <==> MessagesRaise(golden, active, ms[..i], code)
    {
      var m := ms[i];
      ghost var before := errors;
      assert ms[..i + 1] == ms[..i] + [m];
      AllOkGrows(golden, active, ms[..i], m);
      WindowsGrow(windows, ms[..i], m);
      errors := errors + (if m.id in ids then [DuplicateId] else []);
      ids := ids + {m.id};
      var more := CheckMessage(golden, active, m);
      var conflicts;
      ghost var tones := Tones(Leading(m.pulses));
      words, conflicts := CheckWords(words, Tones(Leading(m.pulses)), seen);
      GoodMessage(golden, active, m);
      SeenGrows(seen, tones);
      CodesGrow(golden, active, ms[..i], m, before, m.id in Ids(ms[..i]), more, conflicts);
      seen := seen + tones;
      errors := errors + more + conflicts;
      if End(m) <= UINT64_MAX {
        windows := windows + [WindowOf(m, i)];
      }
    }
    assert ms[..|ms|] == ms;
    if AllOk(golden, active, ms) { SameTones(golden, seen); }
  }

  lemma RaisesGrow(golden: seq<Tone>, active: seq<nat>, ms: seq<Message>, m: Message, code: Code)
    ensures AllLeading(ms + [m]) == AllLeading(ms) + Tones(Leading(m.pulses))
    ensures MessagesRaise(golden, active, ms + [m], code) <==>
            || MessagesRaise(golden, active, ms, code) || MessageRaises(golden, active, m, code)
            || (code == DuplicateId && m.id in Ids(ms))
            || (code == WordInconsistent && !OneWordEach(AllLeading(ms) + Tones(Leading(m.pulses))))
  {
    hide MessageRaises, OneWordEach, MessageOk;
    var all := ms + [m];
    assert all[..|all| - 1] == ms;
    assert forall x :: x in all <==> x in ms || x == m;
    AllOkIds(ms, m);
    SeenGrows(AllLeading(ms), Tones(Leading(m.pulses)));
  }

  lemma CodesGrow(golden: seq<Tone>, active: seq<nat>, ms: seq<Message>, m: Message, before: seq<Code>, repeated: bool,
                  more: seq<Code>, conflicts: seq<Code>)
    requires forall code :: code in before <==> MessagesRaise(golden, active, ms, code)
    requires repeated <==> m.id in Ids(ms)
    requires forall code :: code in more <==> MessageRaises(golden, active, m, code)
    requires forall code :: code in conflicts ==> code == WordInconsistent
    requires OneWordEach(AllLeading(ms)) ==> (conflicts == [] <==> OneWordEach(AllLeading(ms) + Tones(Leading(m.pulses))))
    ensures AllLeading(ms + [m]) == AllLeading(ms) + Tones(Leading(m.pulses))
    ensures forall code ::
              code in before + (if repeated then [DuplicateId] else []) + more + conflicts <==> MessagesRaise(golden, active, ms + [m], code)
  {
    hide MessagesRaise, MessageRaises, OneWordEach, AllLeading, Ids, Tones, Leading;
    RaisesGrow(golden, active, ms, m, DuplicateId);
    SeenGrows(AllLeading(ms), Tones(Leading(m.pulses)));
    InconsistentIsRaised(golden, active, ms);
    FirstIsMember(conflicts);
    var all := before + (if repeated then [DuplicateId] else []) + more + conflicts;
    forall code ensures code in all <==> MessagesRaise(golden, active, ms + [m], code) {
      RaisesGrow(golden, active, ms, m, code);
      assert code in all <==> code in before || (repeated && code == DuplicateId) || code in more || code in conflicts;
    }
  }

  lemma InconsistentIsRaised(golden: seq<Tone>, active: seq<nat>, ms: seq<Message>)
    ensures MessagesRaise(golden, active, ms, WordInconsistent) <==> !OneWordEach(AllLeading(ms))
  {
  }

  lemma AllOkIds(ms: seq<Message>, m: Message)
    ensures UniqueIds(ms + [m]) <==> UniqueIds(ms) && m.id !in Ids(ms)
  {
    var all := ms + [m];
    forall i | 0 <= i < |ms| ensures ms[i].id in Ids(ms) && all[i] == ms[i] { assert ms[i] in ms; }
    if UniqueIds(all) {
      assert forall i, j :: 0 <= i < j < |ms| ==> ms[i] == all[i] && ms[j] == all[j];
      forall x <- ms ensures x.id != m.id {
        var i :| 0 <= i < |ms| && ms[i] == x;
        assert all[i].id != all[|ms|].id;
      }
    }
  }

  lemma NothingChecked(golden: seq<Tone>, active: seq<nat>)
    ensures OneWordEach([]) && Records(map[], []) && AllOk(golden, active, []) && Ids([]) == {}
    ensures WindowsOf([], []) && Indexed([], 0) && AllLeading([]) == []
    ensures forall code :: !MessagesRaise(golden, active, [], code)
  {
  }

  lemma SeenGrows(seen: seq<Tone>, tones: seq<Tone>)
    ensures OneWordEach(seen + tones) ==> OneWordEach(seen)
    ensures forall t :: t in seen + tones <==> t in seen || t in tones
  {
    assert forall t <- seen :: t in seen + tones;
  }

  lemma GoodMessage(golden: seq<Tone>, active: seq<nat>, m: Message)
    ensures MessageOk(golden, active, m) ==> Tones(Leading(m.pulses)) == golden && End(m) <= UINT64_MAX
  {
  }

  // ---- The active set of a job ----------------------------------------------------------------------------

  function AtMost<T>(s: seq<T>, n: nat): seq<T> { if |s| <= n then s else s[..n] }

  lemma {:induction false} OccurrencesGrow(tones: seq<Tone>, k: nat)
    requires k <= |tones|
    ensures FirstOccurrences(tones[..k]) <= FirstOccurrences(tones)
    decreases |tones|
  {
    if k == |tones| {
      assert tones[..k] == tones;
    } else {
      var front := tones[..|tones| - 1];
      OccurrencesGrow(front, k);
      assert front[..k] == tones[..k];
    }
  }

  /** `Submit`'s scan of the first selected message, which stops at the fourth frequency. */
  method ScanActive(m: Message) returns (active: seq<nat>)
    ensures active == AtMost(FirstOccurrences(Tones(m.pulses)), 4)
  {
    active := [];
    ghost var tones := Tones(m.pulses);
    for i := 0 to |m.pulses|
      invariant active == FirstOccurrences(tones[..i]) && |active| < 4
    {
      assert tones[..i + 1][..i] == tones[..i] && tones[..i + 1][i] == tones[i];
      var index := m.pulses[i].frequency;
      if index !in active {
        active := active + [index];
      }
      if |active| == 4 {
        OccurrencesGrow(tones, i + 1);
        return;
      }
    }
    assert tones[..|tones|] == tones;
  }

  /** Wherever the cursor stands, a job carries the policy's active set, in the policy's order. */
  lemma ScanIsActiveSet(s: Scenario, cursor: nat)
    requires Valid(s) && cursor < |s.messages|
    ensures AtMost(FirstOccurrences(Tones(s.messages[cursor].pulses)), 4) == ActiveSet(s)
  {
    var m := s.messages[cursor];
    assert MessageOk(Preamble(s), ActiveSet(s), m);
    var tones := Tones(m.pulses);
    assert tones[..PREAMBLE_PULSES] == Tones(Leading(m.pulses));
    OccurrencesGrow(tones, PREAMBLE_PULSES);
  }

  // ---- Expected truth ---------------------------------------------------------------------------------------

  datatype Expected = Expected(message: nat, index: nat, start: nat, channel: nat, word: nat)

  function ExpectedPulse(m: Message, i: nat): Expected
    requires i < |m.pulses|
  {
    Expected(m.id, i, m.start + i * PULSE_PERIOD, m.pulses[i].frequency, m.pulses[i].value)
  }

  function Train(m: Message, count: nat): (r: seq<Expected>)
    requires count <= |m.pulses|
    ensures |r| == count && forall i :: 0 <= i < count ==> r[i] == ExpectedPulse(m, i)
  {
    seq(count, i requires 0 <= i < count => ExpectedPulse(m, i))
  }

  /** Every scheduled pulse, message by message. */
  function AllPulses(ms: seq<Message>): seq<Expected> {
    if ms == [] then []
    else AllPulses(ms[..|ms| - 1]) + Train(ms[|ms| - 1], |ms[|ms| - 1].pulses|)
  }

  ghost predicate InRange(pulses: seq<Expected>) { forall p <- pulses :: p.start <= UINT64_MAX }

  /** How many pulses the messages before `mi` schedule. */
  function PulsesBefore(ms: seq<Message>, mi: nat): nat
    requires mi <= |ms|
  {
    if mi == 0 then 0 else PulsesBefore(ms, mi - 1) + |ms[mi - 1].pulses|
  }

  /** Pulse `pi` of message `mi` is among the first 512. */
  ghost predicate Listed(ms: seq<Message>, mi: nat, pi: nat) {
    mi < |ms| && pi < |ms[mi].pulses| && PulsesBefore(ms, mi) + pi < MAX_OBSERVED
  }

  lemma {:induction false} PrefixCounts(ms: seq<Message>, n: nat, mi: nat)
    requires mi <= n <= |ms|
    ensures PulsesBefore(ms[..n], mi) == PulsesBefore(ms, mi)
  {
    if mi > 0 { PrefixCounts(ms, n, mi - 1); }
  }

  lemma {:induction false} CountOfPulses(ms: seq<Message>)
    ensures |AllPulses(ms)| == PulsesBefore(ms, |ms|)
    decreases |ms|
  {
    if ms != [] {
      CountOfPulses(ms[..|ms| - 1]);
      PrefixCounts(ms, |ms| - 1, |ms| - 1);
    }
  }

  /** Where each scheduled pulse stands in the list, and what is listed for it. */
  lemma PulseIsListedAt(ms: seq<Message>, mi: nat, pi: nat)
    requires mi < |ms| && pi < |ms[mi].pulses|
    ensures var k, pulse := PulsesBefore(ms, mi) + pi, ms[mi].pulses[pi];
            && k < |AllPulses(ms)|
            && AllPulses(ms)[k] == Expected(ms[mi].id, pi, ms[mi].start + 6500 * pi, pulse.frequency, pulse.value)
  {
    var front := ms[..mi];
    CountOfPulses(front);
    PrefixCounts(ms, mi, mi);
    TrainsGrow(ms, mi + 1);
    assert ms[..mi + 1][..mi] == front;
    assert AllPulses(ms[..mi + 1])[PulsesBefore(ms, mi) + pi] == ExpectedPulse(ms[mi], pi);
  }

  /** Every position of the list belongs to some pulse. */
  lemma {:induction false} PulseOfPosition(ms: seq<Message>, k: nat, n: nat) returns (mi: nat, pi: nat)
    requires n <= |ms| && k < PulsesBefore(ms, n)
    ensures mi < n && pi < |ms[mi].pulses| && k == PulsesBefore(ms, mi) + pi
  {
    if k >= PulsesBefore(ms, n - 1) {
      mi, pi := n - 1, k - PulsesBefore(ms, n - 1);
    } else {
      mi, pi := PulseOfPosition(ms, k, n - 1);
    }
  }

  /** The first 512 pulses: each stands after those of the earlier messages and carries its message,
      index, start, channel and word. */
  ghost predicate IsExpansion(ms: seq<Message>, r: seq<Expected>) {
    && |r| == (if PulsesBefore(ms, |ms|) < 512 then PulsesBefore(ms, |ms|) else 512)
    && forall mi: nat, pi: nat :: Listed(ms, mi, pi) ==>
         && PulsesBefore(ms, mi) + pi < |r|
         && r[PulsesBefore(ms, mi) + pi]
            == Expected(ms[mi].id, pi, ms[mi].start + 6500 * pi, ms[mi].pulses[pi].frequency, ms[mi].pulses[pi].value)
  }

  /** A listed pulse starts beyond 64 bits. */
  ghost predicate Overflows(ms: seq<Message>) {
    exists mi: nat, pi: nat :: Listed(ms, mi, pi) && ms[mi].start + 6500 * pi > UINT64_MAX
  }

  lemma AllPulsesExpand(ms: seq<Message>)
    ensures IsExpansion(ms, AtMost(AllPulses(ms), MAX_OBSERVED))
  {
    hide PulsesBefore, AllPulses;
    CountOfPulses(ms);
    forall mi: nat, pi: nat | Listed(ms, mi, pi)
      ensures var r, k := AtMost(AllPulses(ms), MAX_OBSERVED), PulsesBefore(ms, mi) + pi;
              k < |r| && r[k] == Expected(ms[mi].id, pi, ms[mi].start + 6500 * pi, ms[mi].pulses[pi].frequency,
                                          ms[mi].pulses[pi].value)
    {
      PulseIsListedAt(ms, mi, pi);
    }
  }

  lemma OverflowsIffOutOfRange(ms: seq<Message>, r: seq<Expected>)
    requires IsExpansion(ms, r)
    ensures Overflows(ms) <==> !InRange(r)
  {
    hide PulsesBefore;
    if Overflows(ms) {
      var mi: nat, pi: nat :| Listed(ms, mi, pi) && ms[mi].start + 6500 * pi > UINT64_MAX;
      assert r[PulsesBefore(ms, mi) + pi] in r;
    }
    if p :| p in r && p.start > UINT64_MAX {
      var k :| 0 <= k < |r| && r[k] == p;
      var mi, pi := PulseOfPosition(ms, k, |ms|);
      assert Listed(ms, mi, pi);
    }
  }

  /** The expansion stops listing at 512 pulses; a start beyond 64 bits among the listed ones is an
      `overflow_error`, here `None`. */
  method ExpectedTruth(ms: seq<Message>) returns (r: Option<seq<Expected>>)
    requires forall m <- ms :: m.start <= UINT64_MAX
    ensures r.None? <==> Overflows(ms)
    ensures r.Some? ==> IsExpansion(ms, r.value)
    ensures r.Some? ==> r.value == AtMost(AllPulses(ms), MAX_OBSERVED)
  {
    hide IsExpansion, Overflows;
    AllPulsesExpand(ms);
    OverflowsIffOutOfRange(ms, AtMost(AllPulses(ms), MAX_OBSERVED));
    var pulses: seq<Expected> := [];
    assert ms[..0] == [];
    for mi := 0 to |ms|
      invariant pulses == AtMost(AllPulses(ms[..mi]), MAX_OBSERVED) && InRange(pulses)
    {
      var m := ms[mi];
      assert m in ms && ms[..mi + 1][..mi] == ms[..mi];
      ghost var before := AllPulses(ms[..mi]);
      assert before + Train(m, 0) == before;
      for pi := 0 to |m.pulses|
        invariant pulses == AtMost(before + Train(m, pi), MAX_OBSERVED) && InRange(pulses)
      {
        assert before + Train(m, pi + 1) == (before + Train(m, pi)) + [ExpectedPulse(m, pi)];
        if |pulses| >= MAX_OBSERVED {
          continue;
        }
        if pi > (UINT64_MAX - m.start) / PULSE_PERIOD {
          PrefixListed(ms, mi, pi);
          return None;
        }
        pulses := pulses + [ExpectedPulse(m, pi)];
      }
    }
    assert ms[..|ms|] == ms;
    r := Some(pulses);
  }

  lemma {:induction false} TrainsGrow(ms: seq<Message>, k: nat)
    requires k <= |ms|
    ensures AllPulses(ms[..k]) <= AllPulses(ms)
    decreases |ms|
  {
    if k == |ms| {
      assert ms[..k] == ms;
    } else {
      TrainsGrow(ms[..|ms| - 1], k);
      assert ms[..|ms| - 1][..k] == ms[..k];
    }
  }

  lemma PrefixListed(ms: seq<Message>, mi: nat, pi: nat)
    requires mi < |ms| && pi < |ms[mi].pulses| && |AllPulses(ms[..mi])| + pi < MAX_OBSERVED
    ensures ExpectedPulse(ms[mi], pi) in AtMost(AllPulses(ms), MAX_OBSERVED)
  {
    TrainsGrow(ms, mi + 1);
    assert ms[..mi + 1][..mi] == ms[..mi];
    var at := |AllPulses(ms[..mi])| + pi;
    assert AllPulses(ms[..mi + 1])[at] == ExpectedPulse(ms[mi], pi);
    assert AtMost(AllPulses(ms), MAX_OBSERVED)[at] == AllPulses(ms)[at];
  }

  ghost predicate Clear(a: Expected, b: Expected) {
    a.start + PULSE_PERIOD <= b.start || b.start + PULSE_PERIOD <= a.start
  }

  ghost predicate Spaced(pulses: seq<Expected>) {
    forall i, j :: 0 <= i < j < |pulses| ==> Clear(pulses[i], pulses[j])
  }

  /** Each pulse occupies one period inside its message's window. */
  lemma {:induction false} PulseWindow(ms: seq<Message>, k: nat) returns (mi: nat)
    requires k < |AllPulses(ms)|
    ensures mi < |ms| && ms[mi].start <= AllPulses(ms)[k].start && AllPulses(ms)[k].start + PULSE_PERIOD <= End(ms[mi])
  {
    var front := ms[..|ms| - 1];
    if k < |AllPulses(front)| {
      mi := PulseWindow(front, k);
    } else {
      mi := |ms| - 1;
    }
  }

  /** Disjoint windows keep all pulses of the schedule one period apart. */
  lemma {:induction false} ApartMeansSpaced(ms: seq<Message>)
    requires PairwiseApart(ms)
    ensures Spaced(AllPulses(ms))
  {
    if ms != [] {
      var front, last := ms[..|ms| - 1], ms[|ms| - 1];
      ApartMeansSpaced(front);
      var all := AllPulses(ms);
      var n := |AllPulses(front)|;
      forall i, j | 0 <= i < j < |all| ensures Clear(all[i], all[j]) {
        if i < n <= j {
          var mi := PulseWindow(front, i);
          assert Apart(ms[mi], last);
        } else if j < n {
          assert all[i] == AllPulses(front)[i] && all[j] == AllPulses(front)[j];
        }
      }
    }
  }

  /** A valid schedule expands without an overflow. */
  lemma {:induction false} ValidNeverOverflows(ms: seq<Message>)
    requires forall m <- ms :: End(m) <= UINT64_MAX
    ensures InRange(AllPulses(ms))
  {
    forall p <- AllPulses(ms) ensures p.start <= UINT64_MAX {
      var k :| 0 <= k < |AllPulses(ms)| && AllPulses(ms)[k] == p;
      var mi := PulseWindow(ms, k);
      assert ms[mi] in ms;
    }
  }
}
