/**
 * The PLAY macro-string interpreter (`_read_number` and the `player`
 * loop of `PLAY`).  Instead of sounding notes, the model produces the
 * sequence of events the loop would play: pauses and tones, each with the
 * tempo and length in force and, for letter notes, the dot.  A tone names
 * the NOTE_TABLE entry whose frequency is played; entry 0 is the rest
 * (frequency 0), which is also what a note past the end of the table plays.
 */
module Play {
  import opened Wrappers

  /** NOTE_TABLE has a rest and four octaves of twelve notes. */
  const NoteTableSize: int := 49

  datatype Event =
    | Pause(tempo: nat, length: nat)
    | Tone(entry: nat, tempo: nat, length: nat, dotted: bool)

  /** The exceptions the loop can raise: a division by a zero tempo, or a note index below -49. */
  datatype Fault = ZeroTempo | NoteIndex(n: int)

  /** The octave, length and tempo state of the loop. */
  datatype Voice = Voice(octave: int, length: nat, tempo: nat)

  const Initial: Voice := Voice(4, 4, 120)

  /** What one pass of the loop does: the next position, the new state, and what it played. */
  datatype Advance = Advance(next: nat, voice: Voice, events: seq<Event>)

  predicate IsDigit(c: char) { '0' <= c <= '9' }

  function DigitValue(c: char): nat { if IsDigit(c) then (c as int) - ('0' as int) else 0 }

  /** Python's int() on a string of decimal digits, 0 for the empty string. */
  function DigitsValue(d: seq<char>): nat {
    if |d| == 0 then 0 else DigitsValue(d[..|d| - 1]) * 10 + DigitValue(d[|d| - 1])
  }

  /** The end of the run of digits starting at i. */
  function RunEnd(s: string, i: nat): (j: nat)
    requires i <= |s|
    ensures i <= j <= |s|
    ensures forall k :: i <= k < j ==> IsDigit(s[k])
    ensures j == |s| || !IsDigit(s[j])
    decreases |s| - i
  {
    if i < |s| && IsDigit(s[i]) then RunEnd(s, i + 1) else i
  }

  /**
   * Upper-casing of ASCII letters: no lower-case letter is left, a
   * lower-case letter becomes the capital at its place in the alphabet,
   * and every other character is kept.
   */
  function UpperChar(c: char): (u: char)
    ensures !('a' <= u <= 'z')
    ensures 'a' <= c <= 'z' ==> 'A' <= u <= 'Z' && u as int - 'A' as int == c as int - 'a' as int
    ensures !('a' <= c <= 'z') ==> u == c
  {
    if 'a' <= c <= 'z' then (c as int - 32) as char else c
  }

  /** Upper-casing of a string, character by character: no lower-case letter is left. */
  function Upper(s: string): (u: string)
    ensures |u| == |s| && forall k :: 0 <= k < |u| ==> !('a' <= u[k] <= 'z')
    ensures forall k :: 0 <= k < |s| ==> u[k] == UpperChar(s[k])
  {
    seq(|s|, k requires 0 <= k < |s| => UpperChar(s[k]))
  }

  /** Upper-casing twice is upper-casing once. */
  lemma UpperIdempotent(s: string)
    ensures Upper(Upper(s)) == Upper(s)
  {
  }

  predicate IsNoteLetter(c: char) { 'A' <= c <= 'G' }

  /** NOTE_OFFSET: semitones above C. */
  function NoteOffset(c: char): int
    requires IsNoteLetter(c)
  {
    match c
    case 'C' => 0 case 'D' => 2 case 'E' => 4 case 'F' => 5 case 'G' => 7 case 'A' => 9 case 'B' => 11
  }

  /**
   * The NOTE_TABLE entry a note number plays: numbers past the table are
   * rests, and a negative number indexes from the end of the table, as a
   * Python list does, down to -49; below that the lookup raises.
   */
  function TableEntry(n: int): (r: Result<nat, Fault>)
    ensures r.Success? ==> r.value < NoteTableSize
    ensures 0 <= n < NoteTableSize ==> r == Success(n)
    ensures n >= NoteTableSize ==> r == Success(0)
    ensures -NoteTableSize <= n < 0 ==> r == Success(n + NoteTableSize)
    ensures r.Failure? <==> n < -NoteTableSize
  {
    if n >= NoteTableSize then Success(0)
    else if n >= 0 then Success(n)
    else if n >= -NoteTableSize then Success(n + NoteTableSize)
    else Failure(NoteIndex(n))
  }

  /** The number a letter note plays: octave * 12 + semitone + 1. */
  function LetterNumber(octave: int, semi: int): int { octave * 12 + semi + 1 }

  /** The semitone and next position after letter c at i, with its sharp (+ or #) or flat (-). */
  function Accidental(s: string, i: nat): (r: (int, nat))
    requires i < |s| && IsNoteLetter(s[i])
    ensures i + 1 <= r.1 <= i + 2 && r.1 <= |s|
    ensures r.1 == i + 2 <==> i + 1 < |s| && s[i + 1] in "+#-"
    ensures r.0 == NoteOffset(s[i]) + 1 <==> i + 1 < |s| && s[i + 1] in "+#"
    ensures r.0 == NoteOffset(s[i]) - 1 <==> i + 1 < |s| && s[i + 1] == '-'
    ensures r.0 == NoteOffset(s[i]) <==> r.1 == i + 1
  {
    var semi := NoteOffset(s[i]);
    if i + 1 < |s| && (s[i + 1] == '+' || s[i + 1] == '#') then (semi + 1, i + 2)
    else if i + 1 < |s| && s[i + 1] == '-' then (semi - 1, i + 2)
    else (semi, i + 1)
  }

  /** One pass of the player loop at position i. */
  function Step(s: string, i: nat, v: Voice): (r: Result<Advance, Fault>)
    requires i < |s| && v.length >= 1
    ensures r.Success? ==> i < r.value.next <= |s| && r.value.voice.length >= 1 && |r.value.events| <= 1
    ensures r.Success? ==> forall e :: e in r.value.events ==> e.length == v.length && e.tempo == v.tempo > 0
    ensures r.Failure? && r.error == ZeroTempo ==> v.tempo == 0
    ensures v.tempo == 0 && (s[i] == 'P' || s[i] == 'N') ==> r == Failure(ZeroTempo)
    ensures v.tempo == 0 && IsNoteLetter(s[i]) && TableEntry(LetterNumber(v.octave, Accidental(s, i).0)).Success? ==>
      r == Failure(ZeroTempo)
  {
    var ch := s[i];
    if ch == 'M' && i + 1 < |s| then Success(Advance(i + 2, v, []))
    else if ch == 'T' then
      var j := RunEnd(s, i + 1);
      Success(Advance(j, v.(tempo := DigitsValue(s[i + 1..j])), []))
    else if ch == 'O' then
      var j := RunEnd(s, i + 1);
      Success(Advance(j, v.(octave := DigitsValue(s[i + 1..j])), []))
    else if ch == '>' then Success(Advance(i + 1, v.(octave := v.octave + 1), []))
    else if ch == '<' then Success(Advance(i + 1, v.(octave := v.octave - 1), []))
    else if ch == 'L' then
      var j := RunEnd(s, i + 1);
      var n := DigitsValue(s[i + 1..j]);
      Success(Advance(j, v.(length := if n < 1 then 1 else n), []))
    else if ch == 'P' then
      if v.tempo == 0 then Failure(ZeroTempo) else Success(Advance(i + 1, v, [Pause(v.tempo, v.length)]))
    else if ch == 'N' then
      var j := RunEnd(s, i + 1);
      var note := DigitsValue(s[i + 1..j]);
      var entry := if note < NoteTableSize then note else 0;
      if v.tempo == 0 then Failure(ZeroTempo) else Success(Advance(j, v, [Tone(entry, v.tempo, v.length, false)]))
    else if IsNoteLetter(ch) then
      var (semi, j) := Accidental(s, i);
      match TableEntry(LetterNumber(v.octave, semi))
      case Failure(f) => Failure(f)
      case Success(entry) =>
        if v.tempo == 0 then Failure(ZeroTempo)
        else
          var dotted := j < |s| && s[j] == '.';
          Success(Advance(if dotted then j + 1 else j, v, [Tone(entry, v.tempo, v.length, dotted)]))
    else Success(Advance(i + 1, v, []))
  }

  /** events followed by what r played, or r's fault. */
  function Prepend(events: seq<Event>, r: Result<seq<Event>, Fault>): Result<seq<Event>, Fault> {
    match r
    case Success(rest) => Success(events + rest)
    case Failure(f) => Failure(f)
  }

  /** What the loop plays from position i in state v, or the fault that stops it. */
  function Perform(s: string, i: nat, v: Voice): Result<seq<Event>, Fault>
    requires i <= |s| && v.length >= 1
    decreases |s| - i
  {
    if i == |s| then Success([])
    else
      match Step(s, i, v)
      case Failure(f) => Failure(f)
      case Success(a) => Prepend(a.events, Perform(s, a.next, a.voice))
  }

  /** What PLAY plays for a macro string. */
  function Played(playString: string): Result<seq<Event>, Fault> {
    Perform(Upper(playString), 0, Initial)
  }

  // ---------------------------------------------------------------------
  // Lemmas

  /** Every event is played with a length of at least 1 and a positive tempo. */
  lemma {:induction false} PerformLengths(s: string, i: nat, v: Voice)
    requires i <= |s| && v.length >= 1
    ensures Perform(s, i, v).Success? ==>
      forall e :: e in Perform(s, i, v).value ==> e.length >= 1 && e.tempo > 0
    decreases |s| - i
  {
    if i < |s| {
      var r := Step(s, i, v);
      if r.Success? {
        PerformLengths(s, r.value.next, r.value.voice);
      }
    }
  }

  lemma PlayedLengths(playString: string)
    ensures Played(playString).Success? ==> forall e :: e in Played(playString).value ==> e.length >= 1 && e.tempo > 0
  {
    PerformLengths(Upper(playString), 0, Initial);
  }

  /**
   * NOTE_TABLE ends with the B of the fourth octave (entry 48), so from
   * octave 4 up, the default, every letter note is a rest except a flat C
   * at octave 4 exactly, which plays entry 48.
   */
  lemma HighOctavesRest(s: string, i: nat, v: Voice)
    requires i < |s| && v.length >= 1 && IsNoteLetter(s[i]) && v.octave >= 4
    requires Step(s, i, v).Success?
    ensures |Step(s, i, v).value.events| == 1 && Step(s, i, v).value.events[0].Tone?
    ensures var e := Step(s, i, v).value.events[0].entry;
      if v.octave == 4 && s[i] == 'C' && i + 1 < |s| && s[i + 1] == '-' then e == 48 else e == 0
  {
  }

  /**
   * A letter note plays entry octave * 12 + semitone + 1 of the table,
   * the semitone raised by a following + or # and lowered by a following -;
   * it is dotted exactly when a '.' follows the accidental, which is then
   * consumed too.
   */
  lemma LetterNote(s: string, i: nat, v: Voice)
    requires i < |s| && v.length >= 1 && IsNoteLetter(s[i]) && Step(s, i, v).Success?
    ensures var sharp := i + 1 < |s| && (s[i + 1] == '+' || s[i + 1] == '#');
      var flat := i + 1 < |s| && s[i + 1] == '-';
      var n := LetterNumber(v.octave, NoteOffset(s[i]) + (if sharp then 1 else if flat then -1 else 0));
      var j := if sharp || flat then i + 2 else i + 1;
      var dotted := j < |s| && s[j] == '.';
      && TableEntry(n).Success?
      && Step(s, i, v).value.events == [Tone(TableEntry(n).value, v.tempo, v.length, dotted)]
      && Step(s, i, v).value.next == j + (if dotted then 1 else 0)
      && Step(s, i, v).value.voice == v
  {
  }

  lemma PrependNothing(r: Result<seq<Event>, Fault>)
    ensures Prepend([], r) == r
  {
    if r.Success? {
      assert [] + r.value == r.value;
    }
  }

  /** Appending to what was played before and what comes after can be regrouped. */
  lemma PrependAssoc(a: seq<Event>, b: seq<Event>, r: Result<seq<Event>, Fault>)
    ensures Prepend(a, Prepend(b, r)) == Prepend(a + b, r)
  {
    if r.Success? {
      assert a + (b + r.value) == (a + b) + r.value;
    }
  }

  // ---------------------------------------------------------------------
  // The loops as the source runs them

  /** _read_number: the digits from i on, gathered one by one, and the position after them. */
  method ReadNumber(s: string, i: nat) returns (n: nat, j: nat)
    requires i <= |s|
    ensures j == RunEnd(s, i) && n == DigitsValue(s[i..j])
    ensures (i == |s| || !IsDigit(s[i])) ==> n == 0 && j == i
  {
    var digits := "";
    j := i;
    while j < |s| && IsDigit(s[j])
      invariant i <= j <= |s| && RunEnd(s, j) == RunEnd(s, i) && digits == s[i..j]
      decreases |s| - j
    {
      digits := digits + [s[j]];
      j := j + 1;
    }
    n := DigitsValue(digits);
  }

  /** One successful pass of the loop moves its events onto what was played before. */
  lemma StepPlays(s: string, i: nat, v: Voice, a: Advance, events: seq<Event>)
    requires i < |s| && v.length >= 1 && Step(s, i, v) == Success(a)
    ensures Prepend(events, Perform(s, i, v)) == Prepend(events + a.events, Perform(s, a.next, a.voice))
  {
    PrependAssoc(events, a.events, Perform(s, a.next, a.voice));
  }

  /** A pass of the loop that raises ends the whole performance with that fault. */
  lemma StepFails(s: string, i: nat, v: Voice, f: Fault, events: seq<Event>)
    requires i < |s| && v.length >= 1 && Step(s, i, v) == Failure(f)
    ensures Prepend(events, Perform(s, i, v)) == Failure(f)
  {
  }

  /** One pass of the player loop: the command at i is read and performed. */
  method Pass(s: string, i: nat, v: Voice) returns (r: Result<Advance, Fault>)
    requires i < |s| && v.length >= 1
    ensures r == Step(s, i, v)
  {
    var ch := s[i];
    if ch == 'M' && i + 1 < |s| {
      return Success(Advance(i + 2, v, []));
    }
    if ch == 'T' {
      var tempo, j := ReadNumber(s, i + 1);
      return Success(Advance(j, v.(tempo := tempo), []));
    }
    if ch == 'O' {
      var octave, j := ReadNumber(s, i + 1);
      return Success(Advance(j, v.(octave := octave), []));
    }
    if ch == '>' {
      return Success(Advance(i + 1, v.(octave := v.octave + 1), []));
    }
    if ch == '<' {
      return Success(Advance(i + 1, v.(octave := v.octave - 1), []));
    }
    if ch == 'L' {
      var length, j := ReadNumber(s, i + 1);
      length := if length < 1 then 1 else length;
      return Success(Advance(j, v.(length := length), []));
    }
    if ch == 'P' {
      if v.tempo == 0 {
        return Failure(ZeroTempo);
      }
      return Success(Advance(i + 1, v, [Pause(v.tempo, v.length)]));
    }
    if ch == 'N' {
      var note, j := ReadNumber(s, i + 1);
      var entry := if note < NoteTableSize then note else 0;
      if v.tempo == 0 {
        return Failure(ZeroTempo);
      }
      return Success(Advance(j, v, [Tone(entry, v.tempo, v.length, false)]));
    }
    if IsNoteLetter(ch) {
      var semi := NoteOffset(ch);
      var j := i + 1;
      if j < |s| && (s[j] == '+' || s[j] == '#') {
        semi := semi + 1;
        j := j + 1;
      } else if j < |s| && s[j] == '-' {
        semi := semi - 1;
        j := j + 1;
      }
      assert (semi, j) == Accidental(s, i);
      var entry := TableEntry(v.octave * 12 + semi + 1);
      if entry.Failure? {
        return Failure(entry.error);
      }
      if v.tempo == 0 {
        return Failure(ZeroTempo);
      }
      var dotted := false;
      if j < |s| && s[j] == '.' {
        dotted := true;
        j := j + 1;
      }
      return Success(Advance(j, v, [Tone(entry.value, v.tempo, v.length, dotted)]));
    }
    return Success(Advance(i + 1, v, []));
  }

  /** The player loop of PLAY on the upper-cased string s. */
  method Player(s: string) returns (r: Result<seq<Event>, Fault>)
    ensures r == Perform(s, 0, Initial)
  {
    var voice := Initial;
    var i: nat := 0;
    var events: seq<Event> := [];
    PrependNothing(Perform(s, 0, Initial));
    while i < |s|
      invariant i <= |s| && voice.length >= 1
      invariant Prepend(events, Perform(s, i, voice)) == Perform(s, 0, Initial)
      decreases |s| - i
    {
      var pass := Pass(s, i, voice);
      if pass.Failure? {
        StepFails(s, i, voice, pass.error, events);
        return Failure(pass.error);
      }
      StepPlays(s, i, voice, pass.value, events);
      events := events + pass.value.events;
      i, voice := pass.value.next, pass.value.voice;
    }
    assert events + [] == events;
    r := Success(events);
  }

  /** PLAY: the string is upper-cased and played (in the background or not, which the model does not distinguish). */
  method PlayString(playString: string) returns (r: Result<seq<Event>, Fault>)
    ensures r == Played(playString)
  {
    var s := Upper(playString);
    r := Player(s);
  }
}
