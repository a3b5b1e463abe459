/**
 * Key-distance arithmetic: parsing a note name to a pitch-class index of
 * `noteOrder`, and the shortest signed semitone distance between two keys.
 */
module Tonal {
  import opened Common

  datatype TonalError = InvalidNoteFormat(note: string)

  const NoteOrder: seq<string> := ["C", "C#", "D", "D#", "E", "F", "F#", "G", "G#", "A", "A#", "B"]

  /** `Array.prototype.indexOf`: the first position of `x`, or -1. */
  function IndexOf(xs: seq<string>, x: string): (r: int)
    ensures -1 <= r < |xs|
    ensures r >= 0 ==> xs[r] == x && x !in xs[..r]
    ensures r == -1 <==> x !in xs
  {
    if xs == [] then -1
    else if xs[0] == x then 0
    else
      var r := IndexOf(xs[1..], x);
      assert forall y :: y in xs <==> y == xs[0] || y in xs[1..];
      if r == -1 then -1
      else
        assert xs[..r + 1] == [xs[0]] + xs[1..][..r];
        r + 1
  }

  predicate MatchesAt(s: string, pat: string, j: nat)
  {
    j + |pat| <= |s| && s[j..j + |pat|] == pat
  }

  /** `String.prototype.indexOf` for a non-empty pattern, searching from `i`. */
  function IndexOfSub(s: string, pat: string, i: nat): (r: int)
    requires |pat| > 0
    ensures r == -1 || (i <= r && MatchesAt(s, pat, r))
    ensures r == -1 ==> forall j :: i <= j ==> !MatchesAt(s, pat, j)
    ensures r != -1 ==> forall j :: i <= j < r ==> !MatchesAt(s, pat, j)
    decreases |s| - i
  {
    if i + |pat| > |s| then -1
    else if s[i..i + |pat|] == pat then i
    else IndexOfSub(s, pat, i + 1)
  }

  /** `s.replace(pat, '')` with a string pattern: drops the first occurrence only. */
  function RemoveFirst(s: string, pat: string): string
    requires |pat| > 0
  {
    var k := IndexOfSub(s, pat, 0);
    if k == -1 then s else s[..k] + s[k + |pat|..]
  }

  /** `key.replace('m', '').replace('maj', '')`. */
  function StripQuality(key: string): string
  {
    RemoveFirst(RemoveFirst(key, "m"), "maj")
  }

  predicate IsNoteLetter(c: char)
  {
    'A' <= c <= 'G'
  }

  /** Where `/([A-G])(#|b)?/` matches: the first letter A to G anywhere in `s`. */
  function FirstNoteLetter(s: string): (r: Option<nat>)
    ensures r.Some? ==> r.value < |s| && IsNoteLetter(s[r.value]) &&
                        forall j :: 0 <= j < r.value ==> !IsNoteLetter(s[j])
    ensures r.None? ==> forall j :: 0 <= j < |s| ==> !IsNoteLetter(s[j])
  {
    if s == [] then None
    else if IsNoteLetter(s[0]) then Some(0)
    else match FirstNoteLetter(s[1..])
      case None => None
      case Some(k) => Some(k + 1)
  }

  /** The accidental the pattern's optional group captures right after position `k`. */
  function AccidentalAfter(note: string, k: nat): Option<char>
  {
    if k + 1 < |note| && (note[k + 1] == '#' || note[k + 1] == 'b') then Some(note[k + 1]) else None
  }

  /** The lookup `noteToMidi` performs once it has a letter and an accidental. */
  function LetterMidi(letter: char, accidental: Option<char>): (r: int)
    ensures -1 <= r < 12
  {
    var noteName := [letter];
    var flatName := if accidental == Some('b') then NoteOrder[(IndexOf(NoteOrder, noteName) + 11) % 12] else noteName;
    var name := if accidental == Some('#') then flatName + "#" else flatName;
    IndexOf(NoteOrder, name)
  }

  /** `noteToMidi`: an index into `noteOrder`, or -1 for E# and B#; an error when no letter A–G occurs. */
  function NoteToMidi(note: string): Result<int, TonalError>
  {
    match FirstNoteLetter(note)
    case None => Err(InvalidNoteFormat(note))
    case Some(k) => Ok(LetterMidi(note[k], AccidentalAfter(note, k)))
  }

  /** Pitch class of a natural letter. */
  function NaturalIndex(c: char): int
  {
    match c
    case 'C' => 0 case 'D' => 2 case 'E' => 4 case 'F' => 5
    case 'G' => 7 case 'A' => 9 case 'B' => 11
    case _ => -1
  }

  lemma NoteOrderDistinct(i: int, j: int)
    requires 0 <= i < 12 && 0 <= j < 12 && i != j
    ensures NoteOrder[i] != NoteOrder[j]
  {
  }

  /** Looking up an entry of `noteOrder` finds its own position. */
  lemma IndexOfEntry(j: int)
    requires 0 <= j < 12
    ensures IndexOf(NoteOrder, NoteOrder[j]) == j
  {
    var r := IndexOf(NoteOrder, NoteOrder[j]);
    assert NoteOrder[j] in NoteOrder;
    if r != j {
      NoteOrderDistinct(r, j);
    }
  }

  /** Each letter names the entry of `noteOrder` at its natural pitch class. */
  lemma NaturalEntry(c: char)
    requires IsNoteLetter(c)
    ensures 0 <= NaturalIndex(c) < 12 && NoteOrder[NaturalIndex(c)] == [c]
  {
  }

  lemma IndexOfNatural(c: char)
    requires IsNoteLetter(c)
    ensures 0 <= NaturalIndex(c) < 12
    ensures IndexOf(NoteOrder, [c]) == NaturalIndex(c)
  {
    NaturalEntry(c);
    IndexOfEntry(NaturalIndex(c));
  }

  /** C#, D#, F#, G# and A# sit one entry after their natural. */
  lemma SharpEntry(c: char)
    requires IsNoteLetter(c) && c != 'E' && c != 'B'
    ensures 0 <= NaturalIndex(c) + 1 < 12 && NoteOrder[NaturalIndex(c) + 1] == [c] + "#"
  {
  }

  /** E# and B# are not entries of `noteOrder`. */
  lemma SharpAbsent(c: char)
    requires c == 'E' || c == 'B'
    ensures [c] + "#" !in NoteOrder
  {
    var name := [c] + "#";
    forall j | 0 <= j < 12 ensures NoteOrder[j] != name {
      assert |name| == 2 && name[0] == c;
    }
  }

  /** The sharp branch: one semitone up, except that E# and B# are not in `noteOrder`. */
  lemma SharpIndex(c: char)
    requires IsNoteLetter(c)
    ensures IndexOf(NoteOrder, [c] + "#") == if c == 'E' || c == 'B' then -1 else NaturalIndex(c) + 1
  {
    if c == 'E' || c == 'B' {
      SharpAbsent(c);
    } else {
      SharpEntry(c);
      IndexOfEntry(NaturalIndex(c) + 1);
    }
  }

  /** The pitch class a letter and an accidental denote, written out per case. */
  function LetterPitch(c: char, accidental: Option<char>): int
  {
    var n := NaturalIndex(c);
    match accidental
    case Some('b') => (n + 11) % 12
    case Some('#') => if c == 'E' || c == 'B' then -1 else n + 1
    case _ => n
  }

  /**
   * A flat is the natural minus one semitone modulo 12 (so Cb is 11), a sharp
   * is the natural plus one except E# and B#, which are absent from
   * `noteOrder` and give -1 without an error, and a natural is itself.
   */
  lemma LetterMidiValue(c: char, accidental: Option<char>)
    requires IsNoteLetter(c)
    ensures LetterMidi(c, accidental) == LetterPitch(c, accidental)
  {
    if accidental == Some('b') {
      FlatValue(c);
    } else if accidental == Some('#') {
      SharpValue(c);
    } else {
      NaturalValue(c, accidental);
    }
  }

  lemma FlatValue(c: char)
    requires IsNoteLetter(c)
    ensures LetterMidi(c, Some('b')) == (NaturalIndex(c) + 11) % 12
  {
    IndexOfNatural(c);
    var k := (NaturalIndex(c) + 11) % 12;
    IndexOfEntry(k);
    assert LetterMidi(c, Some('b')) == IndexOf(NoteOrder, NoteOrder[k]);
  }

  lemma SharpValue(c: char)
    requires IsNoteLetter(c)
    ensures LetterMidi(c, Some('#')) == if c == 'E' || c == 'B' then -1 else NaturalIndex(c) + 1
  {
    SharpIndex(c);
  }

  lemma NaturalValue(c: char, accidental: Option<char>)
    requires IsNoteLetter(c) && accidental != Some('b') && accidental != Some('#')
    ensures LetterMidi(c, accidental) == NaturalIndex(c)
  {
    IndexOfNatural(c);
  }

  /** `noteToMidi` fails exactly when no letter A–G occurs, and otherwise reads the first one and its accidental. */
  lemma NoteToMidiValue(note: string)
    ensures NoteToMidi(note).Err? <==> forall j :: 0 <= j < |note| ==> !IsNoteLetter(note[j])
    ensures NoteToMidi(note).Ok? ==>
      var k := FirstNoteLetter(note).value;
      NoteToMidi(note).value == LetterPitch(note[k], AccidentalAfter(note, k))
  {
    match FirstNoteLetter(note)
    case None =>
    case Some(k) => LetterMidiValue(note[k], AccidentalAfter(note, k));
  }

  /** The adjustment of `getPitchShiftInSemitones`: fold a difference beyond a tritone by an octave. */
  function ShortestShift(fromMidi: int, toMidi: int): int
  {
    var diff := toMidi - fromMidi;
    if diff > 6 || diff < -6 then
      if diff > 0 then diff - 12 else diff + 12
    else diff
  }

  function Abs(x: int): nat
  {
    if x < 0 then -x else x
  }

  /** Shifting pitch class `fromMidi` by `shift` semitones lands on the pitch class of `toMidi`. */
  predicate SamePitchClass(fromMidi: int, shift: int, toMidi: int)
  {
    (fromMidi + shift) % 12 == toMidi % 12
  }

  /** For parsed note indices (-1..11) the shift lies within a tritone and reaches the target pitch class. */
  lemma ShortestShiftReaches(fromMidi: int, toMidi: int)
    requires -1 <= fromMidi < 12 && -1 <= toMidi < 12
    ensures -6 <= ShortestShift(fromMidi, toMidi) <= 6
    ensures SamePitchClass(fromMidi, ShortestShift(fromMidi, toMidi), toMidi)
  {
    var diff := toMidi - fromMidi;
    if diff > 6 {
      assert fromMidi + ShortestShift(fromMidi, toMidi) == toMidi - 12;
    } else if diff < -6 {
      assert fromMidi + ShortestShift(fromMidi, toMidi) == toMidi + 12;
    }
  }

  /** No other shift that reaches the target pitch class is shorter. */
  lemma ShortestShiftMinimal(fromMidi: int, toMidi: int, k: int)
    requires -1 <= fromMidi < 12 && -1 <= toMidi < 12
    requires SamePitchClass(fromMidi, k, toMidi)
    ensures Abs(ShortestShift(fromMidi, toMidi)) <= Abs(k)
  {
    var r := ShortestShift(fromMidi, toMidi);
    var q := (fromMidi + k) / 12 - toMidi / 12;
    assert k == toMidi - fromMidi + 12 * q;
    if q > 0 { assert k >= r; } else if q < 0 { assert k <= r; } else { assert k == toMidi - fromMidi; }
  }

  /**
   * `getPitchShiftInSemitones(fromKey, toKey)`: 0 for equal keys; otherwise it
   * fails exactly when one key, with its quality stripped, holds no letter
   * A–G, and it takes the source pitch class to the target one within a tritone.
   */
  function PitchShift(fromKey: string, toKey: string): (r: Result<int, TonalError>)
    ensures fromKey == toKey ==> r == Ok(0)
    ensures r.Ok? ==> -6 <= r.value <= 6
    ensures fromKey != toKey ==>
      (r.Err? <==> NoteToMidi(StripQuality(fromKey)).Err? || NoteToMidi(StripQuality(toKey)).Err?)
    ensures fromKey != toKey && r.Ok? ==>
      SamePitchClass(NoteToMidi(StripQuality(fromKey)).value, r.value, NoteToMidi(StripQuality(toKey)).value)
  {
    if fromKey == toKey then Ok(0)
    else
      var fromNote := StripQuality(fromKey);
      var toNote := StripQuality(toKey);
      match NoteToMidi(fromNote)
      case Err(e) => Err(e)
      case Ok(fromMidi) =>
        match NoteToMidi(toNote)
        case Err(e) => Err(e)
        case Ok(toMidi) =>
          ShortestShiftReaches(fromMidi, toMidi);
          Ok(ShortestShift(fromMidi, toMidi))
  }

  lemma IndexOfSubAbsent(s: string, pat: string, i: nat)
    requires |pat| > 0 && pat[0] !in s
    ensures IndexOfSub(s, pat, i) == -1
    decreases |s| - i
  {
    if i + |pat| <= |s| {
      assert s[i..i + |pat|][0] == s[i];
      IndexOfSubAbsent(s, pat, i + 1);
    }
  }

  lemma IndexOfSubSuffix(s: string, c: char, i: nat)
    requires c !in s && i <= |s|
    ensures IndexOfSub(s + [c], [c], i) == |s|
    decreases |s| - i
  {
    var t := s + [c];
    if i < |s| {
      assert t[i..i + 1] == [s[i]];
      IndexOfSubSuffix(s, c, i + 1);
    } else {
      assert t[i..i + 1] == [c];
    }
  }

  /** A minor suffix is ignored: "Am" parses like "A" (for a note written without any 'm'). */
  lemma MinorSuffixIgnored(note: string)
    requires 'm' !in note
    ensures StripQuality(note + "m") == StripQuality(note) == note
  {
    IndexOfSubSuffix(note, 'm', 0);
    IndexOfSubAbsent(note, "m", 0);
    IndexOfSubAbsent(note, "maj", 0);
    assert (note + "m")[..|note|] == note;
  }
}
