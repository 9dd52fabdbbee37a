/** The ring-tone parser, its bounds, and the playback that parses a saved score again and renders it in chunks. */
module Rtttl {
  import opened Bytes

  const CAPACITY := 1024
  const MAX_DURATION := 600000
  const SAMPLE_RATE := 8000
  const CHUNK := 256

  const SPACE := 0x20
  const SHARP := 0x23
  const COMMA := 0x2c
  const DOT := 0x2e
  const ZERO := 0x30
  const NINE := 0x39
  const COLON := 0x3a
  const EQUALS := 0x3d
  const UPPER_A := 0x41
  const UPPER_Z := 0x5a
  const LETTER_A := 0x61
  const LETTER_B := 0x62
  const LETTER_C := 0x63
  const LETTER_D := 0x64
  const LETTER_E := 0x65
  const LETTER_F := 0x66
  const LETTER_G := 0x67
  const LETTER_O := 0x6f
  const LETTER_P := 0x70

  predicate Digit(c: byte) { ZERO <= c <= NINE }
  predicate Separator(c: byte) { c == COMMA || c == SPACE }

  // ----- numbers

  /** Where the run of digits that starts here ends. */
  function DigitRun(s: seq<byte>, at: nat): (end: nat)
    requires at <= |s|
    ensures at <= end <= |s| && (forall i | at <= i < end :: Digit(s[i])) && (end < |s| ==> !Digit(s[end]))
    decreases |s| - at
  {
    if at < |s| && Digit(s[at]) then DigitRun(s, at + 1) else at
  }

  function Decimal(digits: seq<byte>): nat
    requires forall i | 0 <= i < |digits| :: Digit(digits[i])
  {
    if digits == [] then 0
    else
      assert Digit(digits[|digits| - 1]);
      10 * Decimal(digits[..|digits| - 1]) + (digits[|digits| - 1] as int - ZERO)
  }

  lemma {:induction false} DecimalGrows(digits: seq<byte>, k: nat)
    requires k <= |digits| && forall i | 0 <= i < |digits| :: Digit(digits[i])
    ensures Decimal(digits[..k]) <= Decimal(digits)
    decreases |digits|
  {
    if k < |digits| {
      var front := digits[..|digits| - 1];
      DecimalGrows(front, k);
      assert front[..k] == digits[..k];
    } else {
      assert digits[..k] == digits;
    }
  }

  datatype Number = Number(value: nat, next: nat)

  /** A whole run of digits whose value fits sixteen bits. */
  function NumberAt(s: seq<byte>, at: nat): (r: Option<Number>)
    requires at <= |s|
    ensures r.Some? ==> at < r.value.next <= |s| && r.value.value <= 65535
  {
    var end := DigitRun(s, at);
    if end == at || Decimal(s[at..end]) > 65535 then None else Some(Number(Decimal(s[at..end]), end))
  }

  lemma RunContinues(s: seq<byte>, at: nat, p: nat)
    requires at <= p <= |s| && forall i | at <= i < p :: Digit(s[i])
    ensures DigitRun(s, at) == DigitRun(s, p)
    decreases p - at
  {
    if at < p { RunContinues(s, at + 1, p); }
  }

  lemma DecimalStep(s: seq<byte>, at: nat, p: nat)
    requires at <= p < |s| && forall i | at <= i <= p :: Digit(s[i])
    ensures Decimal(s[at..p + 1]) == 10 * Decimal(s[at..p]) + (s[p] as int - ZERO)
  {
    var run := s[at..p + 1];
    assert run[..|run| - 1] == s[at..p] && run[|run| - 1] == s[p];
  }

  lemma PrefixOf(s: seq<byte>, from: nat, mid: nat, to: nat)
    requires from <= mid <= to <= |s|
    ensures s[from..to][..mid - from] == s[from..mid]
  {
  }

  lemma RunTooLarge(s: seq<byte>, at: nat, p: nat)
    requires at < p <= |s| && (forall i | at <= i < p :: Digit(s[i])) && Decimal(s[at..p]) > 65535
    ensures NumberAt(s, at) == None
  {
    RunContinues(s, at, p);
    hide Decimal, DigitRun, Digit;
    var end := DigitRun(s, at);
    PrefixOf(s, at, p, end);
    DecimalGrows(s[at..end], p - at);
  }

  method ReadNumber(s: seq<byte>, at: nat) returns (r: Option<Number>)
    requires at <= |s|
    ensures r == NumberAt(s, at)
  {
    if at == |s| || !Digit(s[at]) { return None; }
    var p, n := at, 0;
    while p < |s| && Digit(s[p])
      invariant at <= p <= |s| && (forall i | at <= i < p :: Digit(s[i]))
      invariant n == Decimal(s[at..p]) <= 65535
    {
      var d := s[p] as int - ZERO;
      DecimalStep(s, at, p);
      if n > (65535 - d) / 10 {
        RunTooLarge(s, at, p + 1);
        return None;
      }
      n := n * 10 + d;
      p := p + 1;
    }
    RunContinues(s, at, p);
    r := Some(Number(n, p));
  }

  // ----- the parser

  /** stock_rtttl_t without its end: the text is s throughout. */
  datatype Parser = Parser(cursor: nat, denominator: nat, octave: nat, wholeMs: nat, elapsedMs: nat)

  datatype Note = Note(frequency: nat, durationMs: nat)

  predicate ParserOk(p: Parser, s: seq<byte>) {
    p.cursor <= |s| && p.denominator > 0 && p.octave <= 8 && p.wholeMs <= 240000 && p.elapsedMs <= MAX_DURATION
  }

  function Find(s: seq<byte>, at: nat, c: byte): (i: nat)
    requires at <= |s|
    ensures at <= i <= |s| && (i < |s| ==> s[i] == c)
    decreases |s| - at
  {
    if at < |s| && s[at] != c then Find(s, at + 1, c) else at
  }

  /** One assignment of the defaults section: the letter, the value, and where it ends. */
  datatype Setting = Setting(key: byte, value: nat, next: nat)

  function SettingAt(s: seq<byte>, at: nat): (r: Option<Setting>)
    requires at < |s|
    ensures r.Some? ==> at < r.value.next <= |s| && r.value.value <= 65535
  {
    var from := if at + 1 < |s| && s[at + 1] == EQUALS then at + 2 else at + 1;
    var n := NumberAt(s, from);
    if n.None? then None
    else if n.value.next < |s| && s[n.value.next] != COLON && !Separator(s[n.value.next]) then None
    else Some(Setting(s[at], n.value.value, n.value.next))
  }

  predicate KnownSetting(t: Setting) {
    (t.key == LETTER_D && t.value > 0) || (t.key == LETTER_O && t.value <= 8) || (t.key == LETTER_B && t.value > 0)
  }

  function Defaults(s: seq<byte>, at: nat, duration: nat, octave: nat, bpm: nat): (r: Option<Parser>)
    requires at <= |s| && duration > 0 && octave <= 8 && bpm > 0
    ensures r.Some? ==> ParserOk(r.value, s) && r.value.elapsedMs == 0
    decreases |s| - at
  {
    if at == |s| then None
    else if s[at] == COLON then Some(Parser(at + 1, duration, octave, 240000 / bpm, 0))
    else if Separator(s[at]) then Defaults(s, at + 1, duration, octave, bpm)
    else
      var t := SettingAt(s, at);
      if t.None? || !KnownSetting(t.value) then None
      else if t.value.key == LETTER_D then Defaults(s, t.value.next, t.value.value, octave, bpm)
      else if t.value.key == LETTER_O then Defaults(s, t.value.next, duration, t.value.value, bpm)
      else Defaults(s, t.value.next, duration, octave, t.value.value)
  }

  function Start(s: seq<byte>): (r: Option<Parser>)
    ensures r.Some? ==> ParserOk(r.value, s) && r.value.elapsedMs == 0 && |s| <= CAPACITY
  {
    if s == [] || |s| > CAPACITY || 0 in s then None
    else
      var title := Find(s, 0, COLON);
      if title == |s| then None else Defaults(s, title + 1, 4, 6, 63)
  }

  /** The loop over the defaults section. */
  method ReadDefaults(s: seq<byte>, from: nat) returns (r: Option<Parser>)
    requires from <= |s|
    ensures r == Defaults(s, from, 4, 6, 63)
  {
    hide NumberAt;
    var p, duration, octave, bpm := from, 4, 6, 63;
    while p < |s| && s[p] != COLON
      invariant p <= |s| && duration > 0 && octave <= 8 && bpm > 0
      invariant Defaults(s, from, 4, 6, 63) == Defaults(s, p, duration, octave, bpm)
    {
      if Separator(s[p]) { p := p + 1; continue; }
      ghost var at := p;
      var key := s[p];
      p := p + 1;
      if p < |s| && s[p] == EQUALS { p := p + 1; }
      var n := ReadNumber(s, p);
      if n.None? { return None; }
      p := n.value.next;
      var value := n.value.value;
      if key == LETTER_D && value > 0 { duration := value; }
      else if key == LETTER_O && value <= 8 { octave := value; }
      else if key == LETTER_B && value > 0 { bpm := value; }
      else { return None; }
      if p < |s| && s[p] != COLON && !Separator(s[p]) { return None; }
      assert SettingAt(s, at) == Some(Setting(key, value, p));
    }
    if p == |s| { return None; }
    r := Some(Parser(p + 1, duration, octave, 240000 / bpm, 0));
  }

  method Init(s: seq<byte>) returns (r: Option<Parser>)
    ensures r == Start(s)
  {
    hide Defaults;
    if |s| == 0 || |s| > CAPACITY || 0 in s { return None; }
    var p := 0;
    while p < |s| && s[p] != COLON
      invariant 0 <= p <= |s| && Find(s, 0, COLON) == Find(s, p, COLON)
    {
      p := p + 1;
    }
    if p == |s| { return None; }
    r := ReadDefaults(s, p + 1);
  }

  // ----- one note

  function SkipSeparators(s: seq<byte>, at: nat): (i: nat)
    requires at <= |s|
    ensures at <= i <= |s| && (i < |s| ==> !Separator(s[i]))
    decreases |s| - at
  {
    if at < |s| && Separator(s[at]) then SkipSeparators(s, at + 1) else at
  }

  /** Semitones above c; a pause has none. */
  datatype Tone = Pause | Tone(semitone: nat)

  function ToneOf(c: byte): (t: Option<Tone>)
    ensures t.Some? && t.value.Tone? ==> t.value.semitone <= 11
  {
    var key: int := if UPPER_A <= c <= UPPER_Z then c as int + 32 else c;
    if key == LETTER_C then Some(Tone(0)) else if key == LETTER_D then Some(Tone(2)) else if key == LETTER_E then Some(Tone(4))
    else if key == LETTER_F then Some(Tone(5)) else if key == LETTER_G then Some(Tone(7)) else if key == LETTER_A then Some(Tone(9))
    else if key == LETTER_B then Some(Tone(11)) else if key == LETTER_P then Some(Pause) else None
  }

  datatype Tail = Tail(next: nat, dotted: bool, octave: nat)

  /** At most one dot and one octave, in either order. */
  function TailAt(s: seq<byte>, at: nat, dotted: bool, explicit: bool, octave: nat): (r: Option<Tail>)
    requires at <= |s| && octave <= 8
    ensures r.Some? ==> at <= r.value.next <= |s| && r.value.octave <= 8
    decreases |s| - at
  {
    if at < |s| && s[at] == DOT then
      if dotted then None else TailAt(s, at + 1, true, explicit, octave)
    else if at < |s| && Digit(s[at]) then
      var n := NumberAt(s, at);
      if explicit || n.None? || n.value.value > 8 then None else TailAt(s, n.value.next, dotted, true, n.value.value)
    else Some(Tail(at, dotted, octave))
  }

  const SCALE: seq<nat> := [262, 277, 294, 311, 330, 349, 370, 392, 415, 440, 466, 494]

  function Power(k: nat): (p: nat)
    requires k <= 4
    ensures p >= 1
  {
    if k == 0 then 1 else if k == 1 then 2 else if k == 2 then 4 else if k == 3 then 8 else 16
  }

  /** The fourth octave is tabulated; others are reached by shifting. */
  function Pitch(semitone: nat, octave: nat): nat
    requires semitone < 12 && octave <= 8
  {
    if octave >= 4 then SCALE[semitone] * Power(octave - 4) else SCALE[semitone] / Power(4 - octave)
  }

  lemma PitchRange(semitone: nat, octave: nat)
    requires semitone < 12 && octave <= 8
    ensures 16 <= Pitch(semitone, octave) <= 7904
  {
    ScaleRange(semitone);
    var f := SCALE[semitone];
    if octave == 0 { assert f / 16 >= 262 / 16; }
  }

  lemma ScaleRange(semitone: nat)
    requires semitone < 12
    ensures 262 <= SCALE[semitone] <= 494
  {
  }

  datatype Outcome = Ended(cursor: nat) | Bad | Sounds(note: Note, parser: Parser)

  /** The letter and its sharp: the tone, up to twelve semitones, and where it ends. */
  function KeyAt(s: seq<byte>, at: nat): (r: Option<(Tone, nat)>)
    requires at < |s|
    ensures r.Some? ==> at < r.value.1 <= |s| && (r.value.0.Tone? ==> r.value.0.semitone <= 12)
  {
    var tone := ToneOf(s[at]);
    if tone.None? then None
    else if at + 1 < |s| && s[at + 1] == SHARP then
      if tone.value.Pause? then None else Some((Tone(tone.value.semitone + 1), at + 2))
    else Some((tone.value, at + 1))
  }

  function Duration(wholeMs: nat, denominator: nat, dotted: bool): nat
    requires denominator > 0
  {
    var plain := wholeMs / denominator;
    if dotted then plain * 3 / 2 else plain
  }

  /** A sharp b carries into the next octave. */
  function FrequencyOf(tone: Tone, octave: nat): (f: Option<nat>)
    requires octave <= 8 && (tone.Tone? ==> tone.semitone <= 12)
    ensures f.Some? ==> f.value == 0 || 16 <= f.value <= 7904
  {
    match tone
    case Pause => Some(0)
    case Tone(semitone) =>
      if semitone == 12 && octave == 8 then None
      else if semitone == 12 then PitchRange(0, octave + 1); Some(Pitch(0, octave + 1))
      else PitchRange(semitone, octave); Some(Pitch(semitone, octave))
  }

  function NoteFrom(p: Parser, s: seq<byte>, at: nat, denominator: nat): (r: Outcome)
    requires ParserOk(p, s) && p.cursor <= at < |s| && denominator > 0
    ensures !r.Ended?
    ensures r.Sounds? ==> NoteOk(p, s, r.note, r.parser)
  {
    var key := KeyAt(s, at);
    if key.None? then Bad
    else
      var tail := TailAt(s, key.value.1, false, false, p.octave);
      if tail.None? || (tail.value.next < |s| && !Separator(s[tail.value.next])) then Bad
      else
        var duration := Duration(p.wholeMs, denominator, tail.value.dotted);
        if duration == 0 || duration > MAX_DURATION - p.elapsedMs then Bad
        else
          var frequency := FrequencyOf(key.value.0, tail.value.octave);
          if frequency.None? then Bad
          else Sounds(Note(frequency.value, duration), p.(cursor := tail.value.next, elapsedMs := p.elapsedMs + duration))
  }

  /** A note that sounds advances the cursor, keeps within the budget, and has a playable pitch and a length. */
  predicate NoteOk(p: Parser, s: seq<byte>, note: Note, next: Parser) {
    p.cursor < next.cursor <= |s| && ParserOk(next, s) && note.durationMs > 0 && next.elapsedMs == p.elapsedMs + note.durationMs &&
    next == p.(cursor := next.cursor, elapsedMs := next.elapsedMs) && (note.frequency == 0 || 16 <= note.frequency <= 7904)
  }

  function NextAt(p: Parser, s: seq<byte>): (r: Outcome)
    requires ParserOk(p, s)
    ensures r.Sounds? ==> NoteOk(p, s, r.note, r.parser)
  {
    var at := SkipSeparators(s, p.cursor);
    if at == |s| then Ended(at)
    else if Digit(s[at]) then
      var n := NumberAt(s, at);
      if n.None? || n.value.value == 0 || n.value.next == |s| then Bad else NoteFrom(p, s, n.value.next, n.value.value)
    else NoteFrom(p, s, at, p.denominator)
  }

  method ReadTail(s: seq<byte>, from: nat, octave0: nat) returns (r: Option<Tail>)
    requires from <= |s| && octave0 <= 8
    ensures r == TailAt(s, from, false, false, octave0)
  {
    var p, dotted, explicit, octave := from, false, false, octave0;
    while p < |s| && (s[p] == DOT || Digit(s[p]))
      invariant p <= |s| && octave <= 8
      invariant TailAt(s, from, false, false, octave0) == TailAt(s, p, dotted, explicit, octave)
      decreases |s| - p
    {
      if s[p] == DOT {
        if dotted { return None; }
        dotted := true;
        p := p + 1;
      } else {
        if explicit { return None; }
        var n := ReadNumber(s, p);
        if n.None? || n.value.value > 8 { return None; }
        octave := n.value.value;
        p := n.value.next;
        explicit := true;
      }
    }
    r := Some(Tail(p, dotted, octave));
  }

  method SkipOver(s: seq<byte>, from: nat) returns (at: nat)
    requires from <= |s|
    ensures at == SkipSeparators(s, from)
  {
    at := from;
    while at < |s| && Separator(s[at])
      invariant from <= at <= |s| && SkipSeparators(s, from) == SkipSeparators(s, at)
    {
      at := at + 1;
    }
  }

  /** The letter and its sharp; a pause counts as one below c. */
  method ReadKey(s: seq<byte>, from: nat) returns (r: Option<(int, nat)>)
    requires from < |s|
    ensures r.None? <==> KeyAt(s, from).None?
    ensures r.Some? ==> KeyAt(s, from).value == ((if r.value.0 < 0 then Pause else Tone(r.value.0)), r.value.1) && -1 <= r.value.0
  {
    var tone := ToneOf(s[from]);
    if tone.None? { return None; }
    var semitone: int := if tone.value.Pause? then -1 else tone.value.semitone;
    var at := from + 1;
    if at < |s| && s[at] == SHARP {
      if semitone < 0 { return None; }
      semitone := semitone + 1;
      at := at + 1;
    }
    r := Some((semitone, at));
  }

  method ReadFrequency(semitone: int, octave0: nat) returns (f: Option<nat>)
    requires -1 <= semitone <= 12 && octave0 <= 8
    ensures f == FrequencyOf(if semitone < 0 then Pause else Tone(semitone), octave0)
  {
    hide Pitch;
    if semitone < 0 { return Some(0); }
    var octave := octave0 + semitone / 12;
    if octave > 8 { return None; }
    f := Some(Pitch(semitone % 12, octave));
  }

  /** The parser's step, as the device takes it. */
  method Next(p: Parser, s: seq<byte>) returns (r: Outcome)
    requires ParserOk(p, s)
    ensures r == NextAt(p, s)
  {
    hide NumberAt, TailAt, KeyAt, FrequencyOf, SkipSeparators, DigitRun;
    var at := SkipOver(s, p.cursor);
    if at == |s| { return Ended(at); }
    var denominator := p.denominator;
    if Digit(s[at]) {
      var n := ReadNumber(s, at);
      if n.None? || n.value.value == 0 { return Bad; }
      denominator := n.value.value;
      at := n.value.next;
    }
    if at == |s| { return Bad; }
    r := Sound(p, s, at, denominator);
  }

  method Sound(p: Parser, s: seq<byte>, at: nat, denominator: nat) returns (r: Outcome)
    requires ParserOk(p, s) && p.cursor <= at < |s| && denominator > 0
    ensures r == NoteFrom(p, s, at, denominator)
  {
    hide TailAt, KeyAt, FrequencyOf;
    var key := ReadKey(s, at);
    if key.None? { return Bad; }
    var tail := ReadTail(s, key.value.1, p.octave);
    if tail.None? || (tail.value.next < |s| && !Separator(s[tail.value.next])) { return Bad; }
    var duration := p.wholeMs / denominator;
    if tail.value.dotted { duration := duration * 3 / 2; }
    if duration == 0 || duration > MAX_DURATION - p.elapsedMs { return Bad; }
    var frequency := ReadFrequency(key.value.0, tail.value.octave);
    if frequency.None? { return Bad; }
    r := Sounds(Note(frequency.value, duration), p.(cursor := tail.value.next, elapsedMs := p.elapsedMs + duration));
  }

  // ----- what a note spells

  /** A note as a score writes it: an optional length, a letter, a sharp, a dot and an octave digit. */
  datatype Spelling = Spelling(length: seq<byte>, letter: byte, sharp: bool, dotted: bool, octave: Option<nat>)

  predicate WellSpelled(n: Spelling) {
    (forall i | 0 <= i < |n.length| :: Digit(n.length[i])) && (n.length != [] ==> 0 < Decimal(n.length) <= 65535) &&
    ToneOf(n.letter).Some? && (n.sharp ==> ToneOf(n.letter).value.Tone?) && (n.octave.Some? ==> n.octave.value <= 8)
  }

  function Suffix(n: Spelling): (b: seq<byte>)
    requires n.octave.Some? ==> n.octave.value <= 8
  {
    (if n.dotted then [DOT as byte] else []) + (if n.octave.Some? then [ZERO + n.octave.value] else [])
  }

  function Middle(n: Spelling): (b: seq<byte>)
    ensures |b| > 0
  {
    [n.letter] + if n.sharp then [SHARP as byte] else []
  }

  function Spelled(n: Spelling): seq<byte>
    requires WellSpelled(n)
  {
    n.length + Middle(n) + Suffix(n)
  }

  /** The note a spelling stands for, given the score's defaults. */
  function ToneSpelled(n: Spelling): (t: Tone)
    requires WellSpelled(n)
    ensures t.Tone? ==> t.semitone <= 12
  {
    var tone := ToneOf(n.letter).value;
    if n.sharp then Tone(tone.semitone + 1) else tone
  }

  lemma NumberSpelled(s: seq<byte>, at: nat, digits: seq<byte>)
    requires at + |digits| <= |s| && s[at..at + |digits|] == digits && digits != []
    requires (forall i | 0 <= i < |digits| :: Digit(digits[i])) && Decimal(digits) <= 65535
    requires at + |digits| < |s| ==> !Digit(s[at + |digits|])
    ensures NumberAt(s, at) == Some(Number(Decimal(digits), at + |digits|))
  {
    var end := at + |digits|;
    forall i | at <= i < end ensures Digit(s[i]) { assert s[i] == digits[i - at]; }
    RunContinues(s, at, end);
  }

  lemma OctaveSpelled(s: seq<byte>, at: nat, octave: nat)
    requires at < |s| && octave <= 8 && s[at] as int == ZERO + octave && (at + 1 < |s| ==> !Digit(s[at + 1]))
    ensures NumberAt(s, at) == Some(Number(octave, at + 1))
  {
    var digits := [s[at]];
    assert s[at..at + 1] == digits && digits[..0] == [];
    assert Decimal(digits) == 10 * Decimal(digits[..0]) + octave;
    NumberSpelled(s, at, digits);
  }

  lemma TailEnds(s: seq<byte>, at: nat, dotted: bool, explicit: bool, octave: nat)
    requires at <= |s| && octave <= 8 && (at < |s| ==> Separator(s[at]))
    ensures TailAt(s, at, dotted, explicit, octave) == Some(Tail(at, dotted, octave))
  {
  }

  lemma TailOctave(s: seq<byte>, at: nat, dotted: bool, octave: nat, value: nat)
    requires at < |s| && octave <= 8 && value <= 8 && s[at] as int == ZERO + value && (at + 1 < |s| ==> Separator(s[at + 1]))
    ensures TailAt(s, at, dotted, false, octave) == Some(Tail(at + 1, dotted, value))
  {
    hide NumberAt;
    OctaveSpelled(s, at, value);
    TailEnds(s, at + 1, dotted, true, value);
  }

  lemma TailDotted(s: seq<byte>, at: nat, octave: nat)
    requires at < |s| && octave <= 8 && s[at] == DOT
    ensures TailAt(s, at, false, false, octave) == TailAt(s, at + 1, true, false, octave)
  {
  }

  lemma SuffixRead(s: seq<byte>, at: nat, n: Spelling, octave: nat)
    requires WellSpelled(n) && octave <= 8 && at + |Suffix(n)| <= |s| && s[at..at + |Suffix(n)|] == Suffix(n)
    requires at + |Suffix(n)| < |s| ==> Separator(s[at + |Suffix(n)|])
    ensures TailAt(s, at, false, false, octave) ==
            Some(Tail(at + |Suffix(n)|, n.dotted, if n.octave.Some? then n.octave.value else octave))
  {
    hide TailAt, Separator, Digit, ToneOf, Decimal;
    var e := Suffix(n);
    var mark := if n.dotted then at + 1 else at;
    if n.dotted {
      assert s[at] == s[at..at + |e|][0] == DOT;
      TailDotted(s, at, octave);
    }
    if n.octave.Some? {
      assert s[mark] == s[at..at + |e|][mark - at];
      TailOctave(s, mark, n.dotted, octave, n.octave.value);
    } else {
      TailEnds(s, mark, n.dotted, false, octave);
    }
  }

  lemma MiddleRead(s: seq<byte>, at: nat, n: Spelling)
    requires WellSpelled(n) && at + |Middle(n)| <= |s| && s[at..at + |Middle(n)|] == Middle(n)
    requires at + |Middle(n)| < |s| ==> s[at + |Middle(n)|] != SHARP
    ensures KeyAt(s, at) == Some((ToneSpelled(n), at + |Middle(n)|))
  {
    var m := Middle(n);
    assert s[at] == m[0] == n.letter;
    if n.sharp { assert s[at + 1] == m[1]; }
  }

  /** The letter onwards, at any length. */
  lemma LetterRead(p: Parser, s: seq<byte>, n: Spelling, key: nat, denominator: nat)
    requires ParserOk(p, s) && WellSpelled(n) && denominator > 0
    requires var tail := key + |Middle(n)|; var end := tail + |Suffix(n)|;
             p.cursor <= key < tail <= end <= |s| && s[key..tail] == Middle(n) && s[tail..end] == Suffix(n) &&
             (end < |s| ==> Separator(s[end])) && (tail < |s| ==> s[tail] != SHARP)
    ensures var duration := Duration(p.wholeMs, denominator, n.dotted);
            var frequency := FrequencyOf(ToneSpelled(n), if n.octave.Some? then n.octave.value else p.octave);
            NoteFrom(p, s, key, denominator) ==
            if duration == 0 || p.elapsedMs + duration > MAX_DURATION || frequency.None? then Bad
            else Sounds(Note(frequency.value, duration), p.(cursor := key + |Middle(n)| + |Suffix(n)|, elapsedMs := p.elapsedMs + duration))
  {
    hide NumberAt, KeyAt, TailAt, FrequencyOf, ToneOf, Decimal, Duration, Middle, Suffix;
    MiddleRead(s, key, n);
    SuffixRead(s, key + |Middle(n)|, n, p.octave);
  }

  /**
   * Every well-spelled note of a score is read as what it stands for: its own length or the default one, half as long
   * again when dotted, and the pitch of its letter in its own octave or the default one; it is refused only when it
   * would last no time, overrun ten minutes or leave the eighth octave.
   */
  lemma SpelledIsRead(p: Parser, s: seq<byte>, n: Spelling, after: seq<byte>)
    requires ParserOk(p, s) && WellSpelled(n) && s[p.cursor..] == Spelled(n) + after && (after != [] ==> Separator(after[0]))
    ensures var duration := Duration(p.wholeMs, if n.length == [] then p.denominator else Decimal(n.length), n.dotted);
            var frequency := FrequencyOf(ToneSpelled(n), if n.octave.Some? then n.octave.value else p.octave);
            NextAt(p, s) ==
            if duration == 0 || p.elapsedMs + duration > MAX_DURATION || frequency.None? then Bad
            else Sounds(Note(frequency.value, duration), p.(cursor := p.cursor + |Spelled(n)|, elapsedMs := p.elapsedMs + duration))
  {
    hide NumberAt, NoteFrom, FrequencyOf, ToneOf, Decimal, Duration, Middle, Suffix, ToneSpelled;
    var at := p.cursor;
    var key := at + |n.length|;
    Pieces(s, at, n, after);
    LetterApart(n);
    if n.length != [] { NumberSpelled(s, at, n.length); }
    LetterRead(p, s, n, key, if n.length == [] then p.denominator else Decimal(n.length));
  }

  lemma Shifted(s: seq<byte>, at: nat, from: nat, to: nat)
    requires at <= |s| && from <= to <= |s| - at
    ensures s[at..][from..to] == s[at + from..at + to]
  {
  }

  lemma HeadOf(s: seq<byte>, from: nat, to: nat)
    requires from <= to <= |s|
    ensures from < to ==> s[from] == s[from..to][0]
  {
  }

  lemma Cut(l: seq<byte>, m: seq<byte>, e: seq<byte>, a: seq<byte>)
    ensures var r := l + m + e + a; var x, y := |l| + |m|, |l| + |m| + |e|;
            r[0..|l|] == l && r[|l|..x] == m && r[x..y] == e && r[y..|r|] == a
  {
  }

  lemma CutAt(s: seq<byte>, at: nat, l: seq<byte>, m: seq<byte>, e: seq<byte>, a: seq<byte>)
    requires at <= |s| && s[at..] == l + m + e + a
    ensures var key := at + |l|; var tail := key + |m|; var end := tail + |e|;
            |s| == end + |a| && s[at..key] == l && s[key..tail] == m && s[tail..end] == e && s[end..] == a
  {
    Cut(l, m, e, a);
    var x, y := |l| + |m|, |l| + |m| + |e|;
    assert |s| - at == y + |a|;
    Shifted(s, at, 0, |l|);
    Shifted(s, at, |l|, x);
    Shifted(s, at, x, y);
    Shifted(s, at, y, y + |a|);
  }

  lemma Pieces(s: seq<byte>, at: nat, n: Spelling, after: seq<byte>)
    requires WellSpelled(n) && at <= |s| && s[at..] == Spelled(n) + after && (after != [] ==> Separator(after[0]))
    ensures var key := at + |n.length|; var tail := key + |Middle(n)|; var end := tail + |Suffix(n)|;
            |s| == end + |after| && s[at..key] == n.length && s[key..tail] == Middle(n) && s[tail..end] == Suffix(n) &&
            s[key] == n.letter && (end < |s| ==> Separator(s[end])) && (n.length != [] ==> Digit(s[at])) &&
            (tail < |s| ==> s[tail] != SHARP)
  {
    FirstOf(n);
    CutAt(s, at, n.length, Middle(n), Suffix(n), after);
    hide WellSpelled, ToneOf, Decimal, Middle, Suffix, Digit, Separator, Spelled;
    var key := at + |n.length|;
    var tail := key + |Middle(n)|;
    var end := tail + |Suffix(n)|;
    HeadOf(s, at, key);
    HeadOf(s, key, tail);
    HeadOf(s, tail, end);
    HeadOf(s, end, |s|);
    assert s[end..|s|] == s[end..];
  }

  lemma FirstOf(n: Spelling)
    requires WellSpelled(n)
    ensures Middle(n)[0] == n.letter && (n.length != [] ==> Digit(n.length[0])) && (Suffix(n) != [] ==> Suffix(n)[0] != SHARP)
    ensures !Separator(SHARP)
  {
  }

  lemma LetterApart(n: Spelling)
    requires WellSpelled(n)
    ensures !Digit(n.letter) && !Separator(n.letter)
  {
  }

  // ----- what a header stands for

  /** One default as a header writes it, with or without its equals sign. */
  datatype Assignment = Assignment(key: byte, equals: bool, digits: seq<byte>)

  predicate WellAssigned(t: Assignment) {
    t.digits != [] && (forall i | 0 <= i < |t.digits| :: Digit(t.digits[i])) && t.key != COLON && !Separator(t.key)
  }

  predicate AllAssigned(ts: seq<Assignment>) { forall t | t in ts :: WellAssigned(t) }

  function Sign(t: Assignment): seq<byte> { if t.equals then [EQUALS as byte] else [] }

  /** The assignments, each with a comma behind it. */
  function Header(ts: seq<Assignment>): seq<byte> {
    if ts == [] then [] else [ts[0].key] + Sign(ts[0]) + ts[0].digits + ([COMMA as byte] + Header(ts[1..]))
  }

  datatype Settings = Settings(duration: nat, octave: nat, bpm: nat)

  predicate SettingsOk(v: Settings) { v.duration > 0 && v.octave <= 8 && v.bpm > 0 }

  function With(v: Settings, key: byte, n: nat): Settings {
    if key == LETTER_D then v.(duration := n) else if key == LETTER_O then v.(octave := n) else v.(bpm := n)
  }

  /** The last assignment of each letter counts; an unknown letter or a value out of range spoils the score. */
  function Assigned(ts: seq<Assignment>, v: Settings): (w: Option<Settings>)
    requires AllAssigned(ts) && SettingsOk(v)
    ensures w.Some? ==> SettingsOk(w.value)
  {
    if ts == [] then Some(v)
    else
      assert WellAssigned(ts[0]) && forall t | t in ts[1..] :: t in ts;
      var n := Decimal(ts[0].digits);
      if n > 65535 || !KnownSetting(Setting(ts[0].key, n, 0)) then None
      else Assigned(ts[1..], With(v, ts[0].key, n))
  }

  lemma SettingRead(s: seq<byte>, at: nat, t: Assignment, more: seq<byte>)
    requires WellAssigned(t) && at < |s| && s[at..] == [t.key] + Sign(t) + t.digits + ([COMMA as byte] + more)
    ensures var end := at + 1 + |Sign(t)| + |t.digits|;
            end < |s| && s[at] == t.key && s[end] == COMMA && s[end + 1..] == more &&
            SettingAt(s, at) == if Decimal(t.digits) <= 65535 then Some(Setting(t.key, Decimal(t.digits), end)) else None
  {
    hide Decimal, NumberAt;
    CutAt(s, at, [t.key], Sign(t), t.digits, [COMMA as byte] + more);
    var from := at + 1 + |Sign(t)|;
    var end := from + |t.digits|;
    assert s[at] == s[at..at + 1][0] && s[end] == s[end..][0] && s[end + 1..] == s[end..][1..];
    assert s[from] == s[from..end][0] && (t.equals ==> s[at + 1] == s[at + 1..from][0]);
    forall i | from <= i < end ensures Digit(s[i]) { assert s[i] == t.digits[i - from]; }
    if Decimal(t.digits) <= 65535 { NumberSpelled(s, from, t.digits); } else { RunTooLarge(s, from, end); }
  }

  lemma DefaultsStep(s: seq<byte>, at: nat, t: Assignment, v: Settings, more: seq<byte>)
    requires WellAssigned(t) && SettingsOk(v) && at < |s| && s[at..] == [t.key] + Sign(t) + t.digits + ([COMMA as byte] + more)
    ensures var n, next := Decimal(t.digits), at + 2 + |Sign(t)| + |t.digits|;
            next <= |s| && s[next..] == more &&
            Defaults(s, at, v.duration, v.octave, v.bpm) ==
              if n > 65535 || !KnownSetting(Setting(t.key, n, 0)) then None
              else var w := With(v, t.key, n); Defaults(s, next, w.duration, w.octave, w.bpm)
  {
    hide Decimal, SettingAt, Sign;
    SettingRead(s, at, t, more);
  }

  lemma {:induction false} DefaultsRead(s: seq<byte>, at: nat, ts: seq<Assignment>, v: Settings, rest: seq<byte>)
    requires at <= |s| && AllAssigned(ts) && SettingsOk(v) && s[at..] == Header(ts) + ([COLON as byte] + rest)
    ensures Defaults(s, at, v.duration, v.octave, v.bpm) ==
              match Assigned(ts, v)
              case None => None
              case Some(w) => Some(Parser(|s| - |rest|, w.duration, w.octave, 240000 / w.bpm, 0))
    decreases |ts|
  {
    hide Decimal, SettingAt, KnownSetting, Sign;
    if ts == [] {
      assert s[at] == s[at..][0];
    } else {
      var t, more := ts[0], Header(ts[1..]) + ([COLON as byte] + rest);
      assert s[at..] == [t.key] + Sign(t) + t.digits + ([COMMA as byte] + more);
      DefaultsStep(s, at, t, v, more);
      var n, next := Decimal(t.digits), at + 2 + |Sign(t)| + |t.digits|;
      if n <= 65535 && KnownSetting(Setting(t.key, n, 0)) {
        SettingKnown(t.key, n, v);
        DefaultsRead(s, next, ts[1..], With(v, t.key, n), rest);
      }
    }
  }

  lemma SettingKnown(key: byte, n: nat, v: Settings)
    requires KnownSetting(Setting(key, n, 0)) && SettingsOk(v)
    ensures SettingsOk(With(v, key, n))
  {
  }

  lemma {:induction false} FoundAt(s: seq<byte>, at: nat, end: nat, c: byte)
    requires at <= end < |s| && s[end] == c && forall i | at <= i < end :: s[i] != c
    ensures Find(s, at, c) == end
    decreases end - at
  {
    if at < end { FoundAt(s, at + 1, end, c); }
  }

  /** A title, its colon, the defaults and theirs: read as length 4, octave 6 and 63 beats unless assigned otherwise. */
  lemma HeaderIsRead(title: seq<byte>, ts: seq<Assignment>, rest: seq<byte>)
    requires AllAssigned(ts) && COLON !in title
    ensures var s := title + ([COLON as byte] + (Header(ts) + ([COLON as byte] + rest)));
            Start(s) ==
              if |s| > CAPACITY || 0 in s then None
              else match Assigned(ts, Settings(4, 6, 63))
                   case None => None
                   case Some(w) => Some(Parser(|s| - |rest|, w.duration, w.octave, 240000 / w.bpm, 0))
  {
    hide Defaults, Assigned, Header;
    var s := title + ([COLON as byte] + (Header(ts) + ([COLON as byte] + rest)));
    FoundAt(s, 0, |title|, COLON);
    assert s[|title| + 1..] == Header(ts) + ([COLON as byte] + rest);
    DefaultsRead(s, |title| + 1, ts, Settings(4, 6, 63), rest);
  }

  // ----- whole scores

  function Notes(p: Parser, s: seq<byte>): Option<seq<Note>>
    requires ParserOk(p, s)
    decreases |s| - p.cursor
  {
    match NextAt(p, s)
    case Ended(_) => Some([])
    case Bad => None
    case Sounds(note, next) =>
      var rest := Notes(next, s);
      if rest.None? then None else Some([note] + rest.value)
  }

  function Total(notes: seq<Note>): nat {
    if notes == [] then 0 else notes[0].durationMs + Total(notes[1..])
  }

  predicate NotesOk(notes: seq<Note>) {
    forall n | n in notes :: n.durationMs > 0 && (n.frequency == 0 || 16 <= n.frequency <= 7904)
  }

  lemma {:induction false} NotesBounded(p: Parser, s: seq<byte>)
    requires ParserOk(p, s) && Notes(p, s).Some?
    ensures var notes := Notes(p, s).value; |notes| <= |s| - p.cursor && NotesOk(notes) && p.elapsedMs + Total(notes) <= MAX_DURATION
    decreases |s| - p.cursor
  {
    hide NextAt;
    if NextAt(p, s).Sounds? { NotesBounded(NextAt(p, s).parser, s); }
  }

  /** The notes of a score that is accepted. */
  function Score(s: seq<byte>): Option<seq<Note>> {
    var p := Start(s);
    if p.None? then None
    else
      var notes := Notes(p.value, s);
      if notes.None? || notes.value == [] then None else notes
  }

  /** An accepted score has between one note and one per octet, at most ten minutes in all, and playable notes only. */
  lemma ScoreBounds(s: seq<byte>)
    requires Score(s).Some?
    ensures 1 <= |Score(s).value| <= |s| <= CAPACITY && Total(Score(s).value) <= MAX_DURATION && NotesOk(Score(s).value)
  {
    NotesBounded(Start(s).value, s);
  }

  method Validate(s: seq<byte>) returns (ok: bool, durationMs: nat)
    ensures ok <==> Score(s).Some?
    ensures durationMs == if ok then Total(Score(s).value) else 0
  {
    hide Start, NextAt;
    var start := Init(s);
    if start.None? { return false, 0; }
    var p, count := start.value, 0;
    ghost var seen: seq<Note> := [];
    assert Notes(p, s).Some? ==> [] + Notes(p, s).value == Notes(p, s).value;
    while true
      invariant ParserOk(p, s) && count == |seen| && p.elapsedMs == Total(seen)
      invariant Joined(Notes(start.value, s), seen, Notes(p, s))
      decreases |s| - p.cursor
    {
      var next := Next(p, s);
      match next {
        case Ended(_) =>
          assert seen + [] == seen;
          if count == 0 { return false, 0; }
          return true, p.elapsedMs;
        case Bad => return false, 0;
        case Sounds(note, after) =>
          TotalAppend(seen, note);
          JoinNext(Notes(start.value, s), seen, note, Notes(after, s));
          seen := seen + [note];
          p := after;
          count := count + 1;
      }
    }
  }

  predicate Joined(all: Option<seq<Note>>, seen: seq<Note>, rest: Option<seq<Note>>) {
    if rest.None? then all.None? else all == Some(seen + rest.value)
  }

  lemma JoinNext(all: Option<seq<Note>>, seen: seq<Note>, note: Note, rest: Option<seq<Note>>)
    requires Joined(all, seen, if rest.None? then None else Some([note] + rest.value))
    ensures Joined(all, seen + [note], rest)
  {
    if rest.Some? { assert seen + ([note] + rest.value) == seen + [note] + rest.value; }
  }

  lemma {:induction false} TotalAppend(notes: seq<Note>, note: Note)
    ensures Total(notes + [note]) == Total(notes) + note.durationMs
  {
    if notes == [] {
      assert notes + [note] == [note] && [note][1..] == [];
    } else {
      assert (notes + [note])[1..] == notes[1..] + [note];
      TotalAppend(notes[1..], note);
    }
  }

  // ----- square waves

  function StepOf(frequency: nat): (n: nat)
    ensures n > 0
  {
    var n := frequency * 0x1_0000 / SAMPLE_RATE;
    if n == 0 then 1 else n
  }

  function Level(phase: nat): int { if phase >= 0x8000 then -6000 else 6000 }

  function NextPhase(phase: nat, frequency: nat): (q: nat)
    ensures q < 0x1_0000
  {
    (phase + StepOf(frequency)) % 0x1_0000
  }

  function Silence(n: nat): (s: seq<int>)
    ensures |s| == n && forall i | 0 <= i < n :: s[i] == 0
  {
    seq(n, _ => 0)
  }

  function Samples(n: nat, frequency: nat, phase: nat): (s: seq<int>)
    ensures |s| == n
  {
    if frequency == 0 then Silence(n)
    else if n == 0 then []
    else [Level(phase)] + Samples(n - 1, frequency, NextPhase(phase, frequency))
  }

  function PhaseAfter(n: nat, frequency: nat, phase: nat): nat {
    if frequency == 0 then 0 else if n == 0 then phase else PhaseAfter(n - 1, frequency, NextPhase(phase, frequency))
  }

  lemma FirstSample(n: nat, frequency: nat, phase: nat)
    requires frequency != 0 && n > 0
    ensures Samples(n, frequency, phase) == [Level(phase)] + Samples(n - 1, frequency, NextPhase(phase, frequency))
    ensures PhaseAfter(n, frequency, phase) == PhaseAfter(n - 1, frequency, NextPhase(phase, frequency))
  {
  }

  lemma PausesSplit(a: nat, b: nat, phase: nat)
    ensures Samples(a + b, 0, phase) == Samples(a, 0, phase) + Samples(b, 0, PhaseAfter(a, 0, phase))
    ensures PhaseAfter(a + b, 0, phase) == PhaseAfter(b, 0, PhaseAfter(a, 0, phase))
  {
  }

  lemma NoSamples(frequency: nat, phase: nat)
    requires frequency != 0
    ensures Samples(0, frequency, phase) == [] && PhaseAfter(0, frequency, phase) == phase
  {
  }

  /** Rendering in pieces, each starting at the phase the last one ended with, is rendering in one. */
  lemma {:induction false} SamplesSplit(a: nat, b: nat, frequency: nat, phase: nat)
    ensures Samples(a + b, frequency, phase) == Samples(a, frequency, phase) + Samples(b, frequency, PhaseAfter(a, frequency, phase))
    ensures PhaseAfter(a + b, frequency, phase) == PhaseAfter(b, frequency, PhaseAfter(a, frequency, phase))
    decreases a
  {
    hide Samples, PhaseAfter, Level, NextPhase;
    if frequency == 0 {
      PausesSplit(a, b, phase);
    } else if a == 0 {
      NoSamples(frequency, phase);
    } else {
      SamplesSplit(a - 1, b, frequency, NextPhase(phase, frequency));
      FirstSample(a, frequency, phase);
      FirstSample(a + b, frequency, phase);
    }
  }

  lemma OneSample(n: nat, frequency: nat, phase: nat)
    requires frequency != 0
    ensures Samples(n + 1, frequency, phase) == Samples(n, frequency, phase) + [Level(PhaseAfter(n, frequency, phase))]
    ensures PhaseAfter(n + 1, frequency, phase) == NextPhase(PhaseAfter(n, frequency, phase), frequency)
  {
    hide Samples, PhaseAfter, Level, NextPhase;
    SamplesSplit(n, 1, frequency, phase);
    FirstSample(1, frequency, PhaseAfter(n, frequency, phase));
    NoSamples(frequency, NextPhase(PhaseAfter(n, frequency, phase), frequency));
  }

  method Pcm(out: array<int>, samples: nat, frequency: nat, phase0: nat) returns (phase: nat)
    requires samples <= out.Length
    modifies out
    ensures out[..samples] == Samples(samples, frequency, phase0) && phase == PhaseAfter(samples, frequency, phase0)
    ensures out[samples..] == old(out[samples..])
  {
    hide Samples, PhaseAfter, StepOf, Level, NextPhase;
    if frequency == 0 {
      forall i | 0 <= i < samples { out[i] := 0; }
      PauseIsSilent(samples, phase0);
      assert out[..samples] == Silence(samples);
      return 0;
    }
    phase := phase0;
    NoSamples(frequency, phase0);
    for i := 0 to samples
      invariant out[..i] == Samples(i, frequency, phase0) && phase == PhaseAfter(i, frequency, phase0)
      invariant out[samples..] == old(out[samples..])
    {
      OneSample(i, frequency, phase0);
      out[i] := Level(phase);
      phase := NextPhase(phase, frequency);
      assert out[..i + 1] == out[..i] + [out[i]];
    }
  }

  lemma PauseIsSilent(n: nat, phase: nat)
    ensures Samples(n, 0, phase) == Silence(n) && PhaseAfter(n, 0, phase) == 0
  {
  }

  // ----- the playing worker

  /** A note in one piece, from phase zero. */
  function Whole(note: Note): (s: seq<int>)
    ensures |s| == note.durationMs * 8
  {
    Samples(note.durationMs * 8, note.frequency, 0)
  }

  function Render(notes: seq<Note>): seq<int> {
    if notes == [] then [] else Render(notes[..|notes| - 1]) + Whole(notes[|notes| - 1])
  }

  lemma {:induction false} RenderPrefix(a: seq<Note>, b: seq<Note>)
    ensures Render(a) <= Render(a + b)
    decreases |b|
  {
    hide Whole;
    if b == [] {
      assert a + b == a;
    } else {
      assert (a + b)[..|a + b| - 1] == a + b[..|b| - 1];
      RenderPrefix(a, b[..|b| - 1]);
    }
  }

  /** What the looks at the queue before one write meet, and that write. A newer score found by any of these looks ends the
      playing at the same sample. */
  datatype Tick = Tick(replaced: bool, written: bool)

  datatype Ending = Finished | Silent | Failed | Replaced

  function TickAt(tape: seq<Tick>, i: nat): Tick { if i < |tape| then tape[i] else Tick(false, true) }

  predicate Fine(tape: seq<Tick>, i: nat) { !TickAt(tape, i).replaced && TickAt(tape, i).written }

  /** The first chunk from here that is not written, or the end. */
  function StopAt(tape: seq<Tick>, from: nat, end: nat): (k: nat)
    requires from <= end
    ensures from <= k <= end && (k < end ==> !Fine(tape, k)) && forall i | from <= i < k :: Fine(tape, i)
    decreases end - from
  {
    if from == end || !Fine(tape, from) then from else StopAt(tape, from + 1, end)
  }

  lemma StopIs(tape: seq<Tick>, from: nat, end: nat, k: nat)
    requires from <= k <= end && (k < end ==> !Fine(tape, k)) && forall i | from <= i < k :: Fine(tape, i)
    ensures StopAt(tape, from, end) == k
  {
    hide Fine;
  }

  function ChunksOf(note: Note): nat { (note.durationMs * 8 + CHUNK - 1) / CHUNK }

  function Chunks(notes: seq<Note>): nat {
    if notes == [] then 0 else Chunks(notes[..|notes| - 1]) + ChunksOf(notes[|notes| - 1])
  }

  /** The samples in the first k chunks of a note; the last chunk may be short. */
  function SamplesIn(note: Note, k: nat): (n: nat)
    ensures n <= note.durationMs * 8
  {
    if CHUNK * k < note.durationMs * 8 then CHUNK * k else note.durationMs * 8
  }

  /** What the first k chunks of a score sound like. */
  function Heard(notes: seq<Note>, k: nat): seq<int> {
    if notes == [] then []
    else
      var front, last := notes[..|notes| - 1], notes[|notes| - 1];
      if k <= Chunks(front) then Heard(front, k) else Render(front) + Whole(last)[..SamplesIn(last, k - Chunks(front))]
  }

  lemma WholeCut(note: Note)
    ensures Whole(note)[..SamplesIn(note, 0)] == [] && Whole(note)[..SamplesIn(note, ChunksOf(note))] == Whole(note)
    ensures ChunksOf(note) == 0 ==> Whole(note) == []
  {
    hide Samples;
    assert CHUNK * ChunksOf(note) >= note.durationMs * 8;
  }

  /** All chunks are the whole score, and fewer are the start of it. */
  lemma {:induction false} HeardStarts(notes: seq<Note>, k: nat)
    ensures Heard(notes, k) <= Render(notes) && (k >= Chunks(notes) ==> Heard(notes, k) == Render(notes))
  {
    hide Whole, SamplesIn, ChunksOf;
    if notes != [] {
      var front, last := notes[..|notes| - 1], notes[|notes| - 1];
      HeardStarts(front, k);
      WholeCut(last);
      assert Render(front) <= Render(notes);
      if k <= Chunks(front) {
        if k >= Chunks(notes) { assert Render(front) + [] == Render(front); }
      } else {
        PartOf(Render(front), Whole(last), SamplesIn(last, k - Chunks(front)));
        if k >= Chunks(notes) { CutGrows(last, k - Chunks(front)); }
      }
    }
  }

  lemma PartOf(a: seq<int>, b: seq<int>, n: nat)
    requires n <= |b|
    ensures a + b[..n] <= a + b
  {
  }

  lemma CutGrows(note: Note, k: nat)
    requires k >= ChunksOf(note)
    ensures SamplesIn(note, k) == SamplesIn(note, ChunksOf(note))
  {
  }

  lemma ChunksAppend(seen: seq<Note>, note: Note)
    ensures Chunks(seen + [note]) == Chunks(seen) + ChunksOf(note)
  {
    assert (seen + [note])[..|seen|] == seen;
  }

  /** In the middle of a note: the notes before it, and so many chunks of it. */
  lemma {:induction false} HeardWithin(seen: seq<Note>, note: Note, rest: seq<Note>, k: nat)
    requires Chunks(seen) <= k <= Chunks(seen) + ChunksOf(note)
    ensures Heard(seen + [note] + rest, k) == Render(seen) + Whole(note)[..SamplesIn(note, k - Chunks(seen))]
    ensures Chunks(seen) + ChunksOf(note) <= Chunks(seen + [note] + rest)
    decreases |rest|
  {
    hide Whole, SamplesIn, ChunksOf;
    ChunksAppend(seen, note);
    var all := seen + [note] + rest;
    if rest == [] {
      assert all[..|all| - 1] == seen && all[|all| - 1] == note;
      HeardStarts(seen, k);
      WholeCut(note);
    } else {
      assert all[..|all| - 1] == seen + [note] + rest[..|rest| - 1];
      HeardWithin(seen, note, rest[..|rest| - 1], k);
    }
  }

  /** One note, in chunks of at most 256 samples, up to the first that a newer score or the codec stops. */
  method PlayNote(note: Note, tape: seq<Tick>, from: nat) returns (played: seq<int>, at: nat, end: Ending)
    ensures at == StopAt(tape, from, from + ChunksOf(note)) && played == Whole(note)[..SamplesIn(note, at - from)]
    ensures end == if at == from + ChunksOf(note) then Finished else if TickAt(tape, at).replaced then Replaced else Failed
    ensures played <= Whole(note) && (end == Finished ==> played == Whole(note))
  {
    hide Samples, PhaseAfter, TickAt, StopAt;
    var pcm := new int[CHUNK];
    var total := note.durationMs * 8;
    var phase, remaining := 0, total;
    played, at := [], from;
    Unplayed(note.frequency);
    WholeCut(note);
    while remaining > 0
      invariant 0 <= remaining <= total && played == Samples(total - remaining, note.frequency, 0)
      invariant phase == PhaseAfter(total - remaining, note.frequency, 0) || (note.frequency == 0 && remaining == total)
      invariant from <= at && total - remaining == SamplesIn(note, at - from) && (remaining == 0 ==> at == from + ChunksOf(note))
      invariant forall i | from <= i < at :: Fine(tape, i)
    {
      SamplesSplit(total - remaining, remaining, note.frequency, 0);
      StillToPlay(note, at - from);
      if TickAt(tape, at).replaced {
        StopIs(tape, from, from + ChunksOf(note), at);
        return played, at, Replaced;
      }
      var count := if remaining < CHUNK then remaining else CHUNK;
      SamplesSplit(total - remaining, count, note.frequency, 0);
      if note.frequency == 0 { PauseIsSilent(count, phase); PauseIsSilent(count, PhaseAfter(total - remaining, 0, 0)); }
      phase := Pcm(pcm, count, note.frequency, phase);
      if !TickAt(tape, at).written {
        StopIs(tape, from, from + ChunksOf(note), at);
        return played, at, Failed;
      }
      played := played + pcm[..count];
      remaining := remaining - count;
      at := at + 1;
    }
    StopIs(tape, from, from + ChunksOf(note), at);
    end := Finished;
  }

  lemma StillToPlay(note: Note, k: nat)
    requires SamplesIn(note, k) < note.durationMs * 8
    ensures SamplesIn(note, k) == CHUNK * k && k < ChunksOf(note)
    ensures SamplesIn(note, k + 1) == note.durationMs * 8 ==> k + 1 == ChunksOf(note)
  {
  }

  lemma Unplayed(frequency: nat)
    ensures Samples(0, frequency, 0) == [] && (frequency != 0 ==> PhaseAfter(0, frequency, 0) == 0)
  {
  }

  /** The worker parses the score a second time and plays it, if the codec wakes and takes the format; a newer score or a
      failed write stops it. */
  method Play(s: seq<byte>, awake: bool, tape: seq<Tick>) returns (played: seq<int>, end: Ending)
    ensures end == Silent <==> Start(s).None? || !awake
    ensures end == Silent ==> played == []
    ensures Score(s).Some? && awake ==>
              var notes := Score(s).value; var k := StopAt(tape, 0, Chunks(notes));
              played == Heard(notes, k) &&
              end == if TickAt(tape, k).replaced then Replaced else if k < Chunks(notes) then Failed else Finished
    ensures Score(s).Some? && awake ==>
              var n := Chunks(Score(s).value);
              end == Finished <==> (forall i | 0 <= i < n :: Fine(tape, i)) && !TickAt(tape, n).replaced
    ensures Score(s).Some? ==> played <= Render(Score(s).value) && (end == Finished ==> played == Render(Score(s).value))
  {
    hide Start, NextAt, Whole, Render, Heard, Chunks, ChunksOf, SamplesIn, StopAt, TickAt, Fine, Notes;
    var start := Init(s);
    if start.None? { return [], Silent; }
    if !awake { return [], Silent; }
    var p := start.value;
    var at: nat := 0;
    ghost var seen: seq<Note> := [];
    ghost var all := Notes(p, s);
    played := [];
    assert all.Some? ==> [] + all.value == all.value;
    Nothing();
    while true
      invariant ParserOk(p, s) && at == Chunks(seen) && played == Render(seen) && Joined(all, seen, Notes(p, s))
      invariant forall i | 0 <= i < at :: Fine(tape, i)
      decreases |s| - p.cursor
    {
      NotesFrom(p, s);
      if TickAt(tape, at).replaced {
        if all.Some? { StopsBetween(seen, Notes(p, s).value, tape); }
        return played, Replaced;
      }
      var next := Next(p, s);
      match next {
        case Ended(_) =>
          if all.Some? { StopsBetween(seen, [], tape); }
          return played, Finished;
        case Bad => return played, Finished;
        case Sounds(note, after) =>
          JoinNext(all, seen, note, Notes(after, s));
          RenderNext(seen, note);
          ChunksAppend(seen, note);
          var more, reached, how := PlayNote(note, tape, at);
          if how != Finished {
            if all.Some? { StopsWithin(seen, note, Notes(after, s).value, tape, reached); }
            return played + more, how;
          }
          StopAtFine(tape, at, reached);
          played := played + more;
          at := reached;
          seen := seen + [note];
          p := after;
      }
    }
  }

  /** One step of the notes still to come. */
  lemma NotesFrom(p: Parser, s: seq<byte>)
    requires ParserOk(p, s)
    ensures match NextAt(p, s)
            case Ended(_) => Notes(p, s) == Some([])
            case Bad => Notes(p, s) == None
            case Sounds(note, after) =>
              Notes(p, s) == if Notes(after, s).Some? then Some([note] + Notes(after, s).value) else None
  {
  }

  lemma StopAtFine(tape: seq<Tick>, from: nat, end: nat)
    requires from <= end && StopAt(tape, from, end) == end
    ensures forall i | from <= i < end :: Fine(tape, i)
  {
  }

  /** Stopped, or done, after whole notes. */
  lemma StopsBetween(seen: seq<Note>, rest: seq<Note>, tape: seq<Tick>)
    requires (forall i | 0 <= i < Chunks(seen) :: Fine(tape, i)) && (rest == [] || TickAt(tape, Chunks(seen)).replaced)
    ensures Chunks(seen) <= Chunks(seen + rest) && StopAt(tape, 0, Chunks(seen + rest)) == Chunks(seen)
    ensures Heard(seen + rest, Chunks(seen)) == Render(seen) <= Render(seen + rest)
    ensures rest == [] ==> seen + rest == seen
  {
    hide Whole, Render, Heard, Chunks, ChunksOf, SamplesIn, StopAt, TickAt;
    if rest == [] {
      assert seen + rest == seen;
      HeardStarts(seen, Chunks(seen));
    } else {
      assert seen + rest == seen + [rest[0]] + rest[1..];
      HeardWithin(seen, rest[0], rest[1..], Chunks(seen));
      WholeCut(rest[0]);
      RenderPrefix(seen, rest);
    }
    StopIs(tape, 0, Chunks(seen + rest), Chunks(seen));
  }

  /** Stopped inside a note. */
  lemma StopsWithin(seen: seq<Note>, note: Note, rest: seq<Note>, tape: seq<Tick>, k: nat)
    requires (forall i | 0 <= i < Chunks(seen) :: Fine(tape, i)) && k < Chunks(seen) + ChunksOf(note)
    requires k == StopAt(tape, Chunks(seen), Chunks(seen) + ChunksOf(note))
    ensures var all := seen + [note] + rest;
            StopAt(tape, 0, Chunks(all)) == k < Chunks(all) && Heard(all, k) == Render(seen) + Whole(note)[..SamplesIn(note, k - Chunks(seen))] &&
            Heard(all, k) <= Render(all)
  {
    hide Whole, Render, Heard, Chunks, ChunksOf, SamplesIn, Fine;
    var all := seen + [note] + rest;
    HeardWithin(seen, note, rest, k);
    HeardStarts(all, k);
    StopIs(tape, 0, Chunks(all), k);
  }

  lemma Nothing()
    ensures Render([]) == [] && Chunks([]) == 0
  {
  }

  lemma RenderNext(seen: seq<Note>, note: Note)
    ensures Render(seen + [note]) == Render(seen) + Whole(note)
  {
    assert (seen + [note])[..|seen|] == seen;
  }

  // ----- what letters, octaves and lengths sound like

  const CONCERT: seq<nat> := [440, 494, 262, 294, 330, 349, 392]

  /** The letters a to g, in either case, sound their pitches in the fourth octave; p is silent; nothing else is a note. */
  lemma LettersSound(c: byte, i: nat)
    requires i < 7
    ensures c as int == 0x61 + i || c as int == 0x41 + i ==> ToneOf(c).Some? && FrequencyOf(ToneOf(c).value, 4) == Some(CONCERT[i])
    ensures c == 0x70 || c == 0x50 ==> ToneOf(c).Some? && FrequencyOf(ToneOf(c).value, 4) == Some(0)
    ensures ToneOf(c).Some? <==> 0x61 <= c <= 0x67 || 0x41 <= c <= 0x47 || c == 0x70 || c == 0x50
  {
    if i == 0 {} else if i == 1 {} else if i == 2 {} else if i == 3 {} else if i == 4 {} else if i == 5 {} else {}
  }

  /** From the fourth octave up each octave doubles; below it halves, rounded down. */
  lemma OctavesDouble(semitone: nat, octave: nat)
    requires semitone < 12 && octave < 8
    ensures if octave >= 4 then Pitch(semitone, octave + 1) == 2 * Pitch(semitone, octave)
            else Pitch(semitone, octave) == Pitch(semitone, octave + 1) / 2
  {
    if octave == 0 {} else if octave == 1 {} else if octave == 2 {} else if octave == 3 {} else if octave == 4 {}
    else if octave == 5 {} else if octave == 6 {} else {}
  }

  /** Each semitone is between 5.5 and 6.4 percent above the one before, and the tenth is the concert pitch. */
  lemma SemitonesRise(semitone: nat)
    requires semitone < 11
    ensures 10550 * SCALE[semitone] <= 10000 * SCALE[semitone + 1] <= 10640 * SCALE[semitone]
    ensures SCALE[9] == 440
  {
    if semitone == 0 {} else if semitone == 1 {} else if semitone == 2 {} else if semitone == 3 {} else if semitone == 4 {}
    else if semitone == 5 {} else if semitone == 6 {} else if semitone == 7 {} else if semitone == 8 {} else if semitone == 9 {} else {}
  }

  /** A quarter note lasts one beat, to the millisecond below, and a dot adds half. */
  lemma BeatLasts(bpm: nat)
    requires bpm > 0
    ensures var beat := Duration(240000 / bpm, 4, false);
            beat * bpm <= 60000 < (beat + 1) * bpm && Duration(240000 / bpm, 4, true) == beat * 3 / 2
  {
    var whole := 240000 / bpm;
    var beat := whole / 4;
    assert whole * bpm <= 240000 < (whole + 1) * bpm;
    Scaled(4 * beat, whole, bpm);
    Scaled(whole + 1, 4 * (beat + 1), bpm);
    FourTimes(beat, bpm);
    FourTimes(beat + 1, bpm);
  }

  lemma Scaled(a: nat, b: nat, k: nat)
    requires a <= b
    ensures a * k <= b * k
  {
  }

  lemma FourTimes(a: nat, k: nat)
    ensures 4 * a * k == 4 * (a * k)
  {
  }

  /** Where the phase is after i steps. */
  function Turned(phase: nat, i: nat, step: nat): nat { (phase + i * step) % 65536 }

  /** Sample by sample: the phase has advanced by the frequency's share of the sample rate, and the sign is that of its half. */
  lemma {:induction false} SampleAt(n: nat, frequency: nat, phase: nat, i: nat)
    requires i < n && phase < 0x1_0000
    ensures var step := if frequency * 65536 / 8000 == 0 then 1 else frequency * 65536 / 8000;
            Samples(n, frequency, phase)[i] ==
              if frequency == 0 then 0 else if Turned(phase, i, step) >= 32768 then -6000 else 6000
    decreases i
  {
    hide Samples, StepOf, Turned;
    if frequency == 0 {
      PauseIsSilent(n, phase);
    } else {
      var step := StepOf(frequency);
      StepIs(frequency);
      FirstSample(n, frequency, phase);
      AddedUp(phase, i, step);
      if i > 0 { SampleAt(n - 1, frequency, NextPhase(phase, frequency), i - 1); }
    }
  }

  lemma StepIs(frequency: nat)
    ensures StepOf(frequency) == if frequency * 65536 / 8000 == 0 then 1 else frequency * 65536 / 8000
  {
  }

  lemma AddedUp(phase: nat, i: nat, step: nat)
    requires phase < 0x1_0000
    ensures Turned(phase, i, step) == if i == 0 then phase else Turned((phase + step) % 0x1_0000, i - 1, step)
  {
    if i > 0 {
      var a := phase + step;
      assert a == a / 0x1_0000 * 0x1_0000 + a % 0x1_0000;
      assert phase + i * step == a + (i - 1) * step;
    }
  }
}
