/**
 * How the staff component reads a display name: the note it places on the
 * treble staff, the staff position, the ledger line below the staff and the
 * accidental sign drawn beside the note head. Geometry and drawing are not
 * modelled.
 */
module StaffDisplay {
  import opened PianoTypes
  import opened PianoConfig
  import opened StaffConfig
  import opened JsString
  import PianoGame

  /** `toUpperCase` on one character, for the ASCII letters. */
  function ToUpperAscii(ch: char): char {
    if 'a' <= ch <= 'z' then (ch as int - 32) as char else ch
  }

  /** `note.charAt(0).toUpperCase()`; `charAt(0)` of the empty string is the empty string. */
  function BaseLetter(note: string): string {
    if note == [] then "" else [ToUpperAscii(note[0])]
  }

  /** `flatToSharpMap`: the ASCII flat spellings and the sharps they stand for. */
  const FLAT_TO_SHARP: map<string, string> :=
    map["Db" := "C#", "Eb" := "D#", "Gb" := "F#", "Ab" := "G#", "Bb" := "A#"]

  /**
   * The note name the staff looks up: a name containing 'b' goes through the
   * flat table, falling back to its upper-cased first letter; a name with '#'
   * (and no 'b') is used as it is; any other name is its upper-cased first letter.
   */
  function StaffNoteName(note: string): string {
    if 'b' in note then
      if note in FLAT_TO_SHARP then FLAT_TO_SHARP[note] else BaseLetter(note)
    else if '#' in note then note
    else BaseLetter(note)
  }

  /** `NOTE_STAFF_POSITIONS[noteName] ?? 0`: names without an entry sit on the middle line. */
  function PositionOf(noteName: string): int {
    if noteName in NOTE_STAFF_POSITIONS then NOTE_STAFF_POSITIONS[noteName] else 0
  }

  /** The staff position of the note a display name is read as. */
  function StaffPosition(note: string): int {
    PositionOf(StaffNoteName(note))
  }

  /** `position <= -6`: a ledger line is drawn below the staff. */
  predicate NeedsLedgerLine(note: string) {
    StaffPosition(note) <= -6
  }

  datatype Accidental = NoAccidental | SharpSign | FlatSign

  /** The sign drawn beside the note head: a sharp for any '#', else a flat for any 'b'. */
  function DrawnAccidental(note: string): Accidental {
    if '#' in note then SharpSign else if 'b' in note then FlatSign else NoAccidental
  }

  /**
   * Every name lands within the seven staff steps from middle C to B, and the
   * ledger line is drawn exactly for C and C#.
   */
  lemma PositionBounds(noteName: string)
    ensures -6 <= PositionOf(noteName) <= 0
    ensures PositionOf(noteName) <= -6 <==> noteName == "C" || noteName == "C#"
  {
  }

  /**
   * The ASCII flat spelling of a first-octave black key (the letter above
   * it followed by 'b') is read as that sharp, on the sharp's position, and
   * drawn with a flat sign.
   */
  lemma AsciiFlatSpellings(k: NoteName)
    requires k in BLACK_KEYS
    ensures var f := [NextLetter(NameOf(k)[0]), 'b'];
      StaffNoteName(f) == NameOf(k) &&
      StaffPosition(f) == PositionOf([NameOf(k)[0]]) &&
      DrawnAccidental(f) == FlatSign
  {
    var i :| 0 <= i < |BLACK_KEYS| && BLACK_KEYS[i] == k;
    assert i == 0 || i == 1 || i == 2 || i == 3 || i == 4;
  }

  /** The flat table lists exactly the five ASCII flat spellings, one per first-octave black key. */
  lemma FlatTableKeys(f: string)
    ensures f in FLAT_TO_SHARP <==>
      exists i :: 0 <= i < |BLACK_KEYS| && f == [NextLetter(NameOf(BLACK_KEYS[i])[0]), 'b']
    ensures f in FLAT_TO_SHARP ==> |FLAT_TO_SHARP[f]| == 2 && FLAT_TO_SHARP[f][1] == '#'
  {
    if f in FLAT_TO_SHARP {
      if f == "Db" {
        assert f == [NextLetter(NameOf(BLACK_KEYS[0])[0]), 'b'];
      } else if f == "Eb" {
        assert f == [NextLetter(NameOf(BLACK_KEYS[1])[0]), 'b'];
      } else if f == "Gb" {
        assert f == [NextLetter(NameOf(BLACK_KEYS[2])[0]), 'b'];
      } else if f == "Ab" {
        assert f == [NextLetter(NameOf(BLACK_KEYS[3])[0]), 'b'];
      } else {
        assert f == [NextLetter(NameOf(BLACK_KEYS[4])[0]), 'b'];
      }
    }
  }

  /**
   * The spellings generation shows for `k`, by shape: the first-octave name
   * alone (one letter from A to G) for a white key; for a black key that
   * name (the letter and '#') and the letter above with a flat sign.
   */
  lemma GeneratedSpellingShapes(k: NoteName)
    ensures var s := NameOf(FirstOctave(k));
      1 <= |s| && 'A' <= s[0] <= 'G' &&
      (!Notes(k).isBlack ==> |s| == 1 && PianoGame.DisplayNameChoices(k) == [s]) &&
      (Notes(k).isBlack ==>
        s == [s[0], '#'] && FirstOctave(k) in BLACK_KEYS &&
        PianoGame.DisplayNameChoices(k) == [s, [NextLetter(s[0]), FLAT_SYMBOL]])
  {
    SharpDisplayNamesWellFormed(k);
    SecondOctaveSharesSound(k);
    var f := FirstOctave(k);
    assert FirstOctave(f) == f && Notes(f).isBlack == Notes(k).isBlack;
    KeyColoursPartition(f);
  }

  /** A capital letter alone is read as itself, with no sign. */
  lemma ReadLetter(l: char)
    requires 'A' <= l <= 'G'
    ensures StaffNoteName([l]) == [l] && DrawnAccidental([l]) == NoAccidental
    ensures AsciiFlat([l]) == [l]
  {
    assert 'b' !in [l] && '#' !in [l] && FLAT_SYMBOL !in [l];
  }

  /** A capital letter and '#' is read as itself, with a sharp sign. */
  lemma ReadSharp(l: char)
    requires 'A' <= l <= 'G'
    ensures StaffNoteName([l, '#']) == [l, '#'] && DrawnAccidental([l, '#']) == SharpSign
    ensures AsciiFlat([l, '#']) == [l, '#']
  {
    assert [l, '#'][1] == '#';
    assert 'b' !in [l, '#'] && FLAT_SYMBOL !in [l, '#'];
  }

  /** A capital letter and the flat sign is read as the bare letter, with no sign. */
  lemma ReadFlatSign(l: char)
    requires 'A' <= l <= 'G'
    ensures StaffNoteName([l, FLAT_SYMBOL]) == [l] && DrawnAccidental([l, FLAT_SYMBOL]) == NoAccidental
    ensures AsciiFlat([l, FLAT_SYMBOL]) == [l, 'b']
  {
    var f := [l, FLAT_SYMBOL];
    assert 'b' !in f && '#' !in f;
    assert IndexOf(f, FLAT_SYMBOL) == 1;
    assert f[..1] + "b" + f[2..] == [l, 'b'];
  }

  /** The letter one step above a natural letter is a natural letter. */
  lemma NextLetterIsLetter(l: char)
    requires 'A' <= l <= 'G'
    ensures 'A' <= NextLetter(l) <= 'G'
  {
  }

  /**
   * How the staff reads one generated spelling of a key whose first-octave
   * name is `s`: the plain name or sharp spelling is read as `s`, the flat
   * spelling as its bare letter; spelling the flat sign as 'b' changes only
   * the flat spelling.
   */
  lemma ReadGeneratedSpelling(s: string, name: string, black: bool)
    requires 1 <= |s| && 'A' <= s[0] <= 'G'
    requires !black ==> s == [s[0]] && name == s
    requires black ==> s == [s[0], '#'] && (name == s || name == [NextLetter(s[0]), FLAT_SYMBOL])
    ensures !black || name == s ==>
      StaffNoteName(name) == s && DrawnAccidental(name) == (if black then SharpSign else NoAccidental)
    ensures black && name != s ==>
      StaffNoteName(name) == [name[0]] && DrawnAccidental(name) == NoAccidental
    ensures AsciiFlat(name) == if black && name != s then [NextLetter(s[0]), 'b'] else name
  {
    if !black {
      ReadLetter(s[0]);
    } else if name == s {
      ReadSharp(s[0]);
    } else {
      NextLetterIsLetter(s[0]);
      ReadFlatSign(NextLetter(s[0]));
    }
  }

  /**
   * The spellings generation shows, as the staff reads them: a white key's
   * plain name and a black key's sharp spelling are read as the key itself,
   * with a sharp sign exactly for the sharp, and get the ledger line exactly
   * for C and C#; the flat spelling is read as its bare letter, with no sign.
   */
  lemma GeneratedSpellingsOnStaff(k: NoteName, name: string)
    requires name in PianoGame.DisplayNameChoices(k)
    ensures !Notes(k).isBlack || name == NameOf(FirstOctave(k)) ==>
      StaffNoteName(name) == NameOf(FirstOctave(k)) &&
      DrawnAccidental(name) == (if Notes(k).isBlack then SharpSign else NoAccidental) &&
      (NeedsLedgerLine(name) <==> FirstOctave(k) == C || FirstOctave(k) == Cs)
    ensures Notes(k).isBlack && name != NameOf(FirstOctave(k)) ==>
      StaffNoteName(name) == [name[0]] && DrawnAccidental(name) == NoAccidental
  {
    GeneratedSpellingShapes(k);
    var s := NameOf(FirstOctave(k));
    ReadGeneratedSpelling(s, name, Notes(k).isBlack);
    FirstOctaveLedgerLine(FirstOctave(k));
  }

  /** Of the first-octave names, only "C" and "C#" hang below the staff. */
  lemma FirstOctaveLedgerLine(f: NoteName)
    ensures PositionOf(NameOf(f)) <= -6 <==> f == C || f == Cs
  {
    PositionBounds(NameOf(f));
    NameOfInjective(f, C);
    NameOfInjective(f, Cs);
  }

  /**
   * The note names themselves: a white second-octave name is read as its
   * letter, while a black second-octave name such as "C#2" has no staff entry
   * and falls back to the middle line.
   */
  lemma NoteNamesOnStaff(k: NoteName)
    ensures !Notes(k).isBlack ==> StaffPosition(NameOf(k)) == PositionOf(NameOf(FirstOctave(k)))
    ensures Notes(k).isBlack && FirstOctave(k) == k ==> StaffPosition(NameOf(k)) == PositionOf(NameOf(k)) < 0
    ensures Notes(k).isBlack && FirstOctave(k) != k ==> StaffPosition(NameOf(k)) == 0
  {
    match k
    case C | D | E | F | G | A | B =>
    case C2 | D2 | E2 | F2 =>
    case Cs | Ds | Fs | Gs | As =>
    case Cs2 | Ds2 | Fs2 =>
  }

  /** Worked readings, the empty name and lower case among them. */
  lemma StaffExamples()
    ensures StaffNoteName("Db") == "C#" && StaffPosition("Db") == -6 && NeedsLedgerLine("Db")
    ensures StaffNoteName("C#") == "C#" && DrawnAccidental("C#") == SharpSign
    ensures StaffNoteName("db") == "D" && StaffPosition("db") == -5
    ensures StaffNoteName("e") == "E" && StaffPosition("e") == -4 && !NeedsLedgerLine("e")
    ensures StaffNoteName("") == "" && StaffPosition("") == 0
  {
  }

  // ---------------------------------------------------------------------
  // The generated flat spellings

  /** The table's flat spelling of a black key: the letter above its first-octave name, then the flat sign. */
  lemma FlatSpelling(k: NoteName)
    requires Notes(k).isBlack
    ensures SharpDisplayNames(k).Some?
    ensures SharpDisplayNames(k).value.1 == [NextLetter(NameOf(FirstOctave(k))[0]), FLAT_SYMBOL]
  {
    SharpDisplayNamesWellFormed(k);
    SecondOctaveSharesSound(k);
  }

  /**
   * As written, the parser looks for an ASCII 'b' but generation spells
   * flats with U+266D: every generated flat spelling is read as the natural
   * letter above the key and drawn with no sign, a note other than the one
   * the key plays. "D\U{266D}" (asked for when C# is the answer) shows a plain D.
   */
  lemma GeneratedFlatReadAsNatural(k: NoteName)
    requires Notes(k).isBlack
    ensures var f := SharpDisplayNames(k).value.1;
      DrawnAccidental(f) == NoAccidental &&
      StaffNoteName(f) == [NextLetter(NameOf(FirstOctave(k))[0])] &&
      StaffNoteName(f) != NameOf(FirstOctave(k))
    ensures StaffNoteName("D\U{266D}") == "D" && StaffPosition("D\U{266D}") == -5
    ensures DrawnAccidental("D\U{266D}") == NoAccidental && !NeedsLedgerLine("D\U{266D}")
  {
    GeneratedSpellingShapes(k);
    FlatSpelling(k);
    var s := NameOf(FirstOctave(k));
    ReadGeneratedSpelling(s, [NextLetter(s[0]), FLAT_SYMBOL], true);
    ReadFlatSign('D');
  }

  /** The flat sign written as the ASCII 'b' the parser and its table expect. */
  function AsciiFlat(note: string): string {
    ReplaceFirst(note, FLAT_SYMBOL, "b")
  }

  /** The note the staff evidently should read: the same parse after spelling the flat sign as 'b'. */
  function IntendedStaffNoteName(note: string): string {
    StaffNoteName(AsciiFlat(note))
  }

  /** The sign the staff evidently should draw. */
  function IntendedAccidental(note: string): Accidental {
    DrawnAccidental(AsciiFlat(note))
  }

  /** A name without a flat sign is read exactly as before. */
  lemma IntendedAgreesWithoutFlatSign(note: string)
    requires FLAT_SYMBOL !in note
    ensures IntendedStaffNoteName(note) == StaffNoteName(note)
    ensures IntendedAccidental(note) == DrawnAccidental(note)
  {
  }

  /**
   * With the flat sign read as 'b', every spelling generation shows is read
   * as the key it was generated for (so it sits on that key's staff
   * position) and carries the sign it is spelled with.
   */
  lemma IntendedStaffShowsGeneratedNote(k: NoteName, name: string)
    requires name in PianoGame.DisplayNameChoices(k)
    ensures IntendedStaffNoteName(name) == NameOf(FirstOctave(k))
    ensures IntendedAccidental(name) ==
      if !Notes(k).isBlack then NoAccidental
      else if name == NameOf(FirstOctave(k)) then SharpSign
      else FlatSign
  {
    GeneratedSpellingShapes(k);
    var s := NameOf(FirstOctave(k));
    ReadGeneratedSpelling(s, name, Notes(k).isBlack);
    if Notes(k).isBlack && name != s {
      AsciiFlatSpellings(FirstOctave(k));
    }
  }
}
