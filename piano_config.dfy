/** The constant note, key and difficulty tables of the game. */
module PianoConfig {
  import opened Wrappers
  import opened PianoTypes
  import JsString

  /** A note-table entry (`Omit<Note, 'displayName'>`). */
  datatype NoteData = NoteData(name: NoteName, isBlack: bool, soundFile: string)

  /** The note table `NOTES`; second-octave entries reuse first-octave sounds. */
  function Notes(n: NoteName): NoteData {
    match n
    case C => NoteData(C, false, "c1.wav")
    case Cs => NoteData(Cs, true, "c1s.wav")
    case D => NoteData(D, false, "d1.wav")
    case Ds => NoteData(Ds, true, "d1s.wav")
    case E => NoteData(E, false, "e1.wav")
    case F => NoteData(F, false, "f1.wav")
    case Fs => NoteData(Fs, true, "f1s.wav")
    case G => NoteData(G, false, "g1.wav")
    case Gs => NoteData(Gs, true, "g1s.wav")
    case A => NoteData(A, false, "a1.wav")
    case As => NoteData(As, true, "a1s.wav")
    case B => NoteData(B, false, "b1.wav")
    case C2 => NoteData(C2, false, "c1.wav")
    case Cs2 => NoteData(Cs2, true, "c1s.wav")
    case D2 => NoteData(D2, false, "d1.wav")
    case Ds2 => NoteData(Ds2, true, "d1s.wav")
    case E2 => NoteData(E2, false, "e1.wav")
    case F2 => NoteData(F2, false, "f1.wav")
    case Fs2 => NoteData(Fs2, true, "f1s.wav")
  }

  /** U+266F MUSIC SHARP SIGN and U+266D MUSIC FLAT SIGN. */
  const SHARP_SYMBOL: char := '\U{266F}'
  const FLAT_SYMBOL: char := '\U{266D}'

  /** `SHARP_DISPLAY_NAMES`: the sharp and the flat spelling offered for each black key. */
  function SharpDisplayNames(n: NoteName): Option<(string, string)> {
    match n
    case Cs => Some(("C#", "D\U{266D}"))
    case Ds => Some(("D#", "E\U{266D}"))
    case Fs => Some(("F#", "G\U{266D}"))
    case Gs => Some(("G#", "A\U{266D}"))
    case As => Some(("A#", "B\U{266D}"))
    case Cs2 => Some(("C#", "D\U{266D}"))
    case Ds2 => Some(("D#", "E\U{266D}"))
    case Fs2 => Some(("F#", "G\U{266D}"))
    case _ => None
  }

  /** Keyboard order, left to right, then the second octave. */
  const KEY_ORDER: seq<NoteName> :=
    [C, Cs, D, Ds, E, F, Fs, G, Gs, A, As, B, C2, Cs2, D2, Ds2, E2, F2, Fs2]

  const WHITE_KEYS: seq<NoteName> := [C, D, E, F, G, A, B]
  const BLACK_KEYS: seq<NoteName> := [Cs, Ds, Fs, Gs, As]
  const WHITE_KEYS_OCTAVE2: seq<NoteName> := [C2, D2, E2, F2]
  const BLACK_KEYS_OCTAVE2: seq<NoteName> := [Cs2, Ds2, Fs2]

  /** A `DIFFICULTIES` entry; `text` is the entry's `label` (a reserved word in Dafny). */
  datatype DifficultyOption = DifficultyOption(value: Difficulty, text: string)

  const DIFFICULTIES: seq<DifficultyOption> := [
    DifficultyOption(3, "Easy"),
    DifficultyOption(10, "Medium"),
    DifficultyOption(25, "Hard"),
    DifficultyOption(100, "Expert")
  ]

  const DEFAULT_DIFFICULTY: Difficulty := 10

  /** The first-octave note a name denotes: its own name for the first octave. */
  function FirstOctave(n: NoteName): NoteName {
    match n
    case C2 => C
    case Cs2 => Cs
    case D2 => D
    case Ds2 => Ds
    case E2 => E
    case F2 => F
    case Fs2 => Fs
    case _ => n
  }

  /** The natural letter one step above a natural letter, wrapping from G to A. */
  function NextLetter(ch: char): char {
    match ch
    case 'A' => 'B'
    case 'B' => 'C'
    case 'C' => 'D'
    case 'D' => 'E'
    case 'E' => 'F'
    case 'F' => 'G'
    case 'G' => 'A'
    case _ => ch
  }

  /** The position of a note name in KEY_ORDER. */
  function KeyIndex(k: NoteName): (i: nat)
    ensures i < |KEY_ORDER| && KEY_ORDER[i] == k
    ensures i < 12 <==> FirstOctave(k) == k
  {
    match k
    case C => 0
    case Cs => 1
    case D => 2
    case Ds => 3
    case E => 4
    case F => 5
    case Fs => 6
    case G => 7
    case Gs => 8
    case A => 9
    case As => 10
    case B => 11
    case C2 => 12
    case Cs2 => 13
    case D2 => 14
    case Ds2 => 15
    case E2 => 16
    case F2 => 17
    case Fs2 => 18
  }

  /** The names of the note table are distinct strings. */
  lemma NameOfInjective(m: NoteName, n: NoteName)
    ensures NameOf(m) == NameOf(n) ==> m == n
  {
  }

  /** KEY_ORDER lists each of the nineteen names exactly once, and each is its own table key. */
  lemma KeyOrderWellFormed()
    ensures |KEY_ORDER| == 19
    ensures forall i, j :: 0 <= i < j < |KEY_ORDER| ==> NameOf(KEY_ORDER[i]) != NameOf(KEY_ORDER[j])
    ensures forall k: NoteName :: k in KEY_ORDER
    ensures forall i :: 0 <= i < |KEY_ORDER| ==> Notes(KEY_ORDER[i]).name == KEY_ORDER[i]
  {
    forall k: NoteName ensures k in KEY_ORDER {
      assert KEY_ORDER[KeyIndex(k)] == k;
    }
  }

  /** A note is a black key exactly when its name carries '#'. */
  lemma IsBlackIffSharp(k: NoteName)
    ensures Notes(k).isBlack <==> '#' in NameOf(k)
  {
  }

  /** A second-octave note sounds like the first-octave note its name (minus the '2') denotes. */
  lemma SecondOctaveSharesSound(k: NoteName)
    ensures NameOf(FirstOctave(k)) == JsString.ReplaceFirst(NameOf(k), '2', "")
    ensures Notes(k).soundFile == Notes(FirstOctave(k)).soundFile
  {
  }

  /**
   * SHARP_DISPLAY_NAMES is defined exactly on the black keys; the first
   * spelling is the key's name without its octave digit, the second the
   * next letter with a flat sign.
   */
  lemma SharpDisplayNamesWellFormed(k: NoteName)
    ensures SharpDisplayNames(k).Some? <==> Notes(k).isBlack
    ensures SharpDisplayNames(k).Some? ==>
      var (sharp, flat) := SharpDisplayNames(k).value;
      sharp == JsString.ReplaceFirst(NameOf(k), '2', "") &&
      flat == [NextLetter(sharp[0]), FLAT_SYMBOL]
  {
    match k
    case Cs | Cs2 =>
    case Ds | Ds2 =>
    case Fs | Fs2 =>
    case Gs =>
    case As =>
    case _ =>
  }

  /** The four key-colour lists: 0 white, 1 black, 2 white octave 2, 3 black octave 2. */
  function ColourList(list: nat): seq<NoteName>
    requires list < 4
  {
    if list == 0 then WHITE_KEYS
    else if list == 1 then BLACK_KEYS
    else if list == 2 then WHITE_KEYS_OCTAVE2
    else BLACK_KEYS_OCTAVE2
  }

  /** Which key-colour list holds `k`, and where. */
  function ColourPlace(k: NoteName): (p: (nat, nat))
    ensures p.0 < 4 && p.1 < |ColourList(p.0)| && ColourList(p.0)[p.1] == k
  {
    match k
    case C => (0, 0)
    case D => (0, 1)
    case E => (0, 2)
    case F => (0, 3)
    case G => (0, 4)
    case A => (0, 5)
    case B => (0, 6)
    case Cs => (1, 0)
    case Ds => (1, 1)
    case Fs => (1, 2)
    case Gs => (1, 3)
    case As => (1, 4)
    case C2 => (2, 0)
    case D2 => (2, 1)
    case E2 => (2, 2)
    case F2 => (2, 3)
    case Cs2 => (3, 0)
    case Ds2 => (3, 1)
    case Fs2 => (3, 2)
  }

  /**
   * Each key-colour list agrees with the note table: the white lists hold
   * white keys, the black lists black keys, the first two lists the
   * first-octave names and the octave-2 lists the others.
   */
  lemma KeyListColours(list: nat, i: nat)
    requires list < 4 && i < |ColourList(list)|
    ensures Notes(ColourList(list)[i]).isBlack <==> list == 1 || list == 3
    ensures FirstOctave(ColourList(list)[i]) == ColourList(list)[i] <==> list < 2
  {
  }

  /**
   * The key-colour lists split the nineteen names: a name is in exactly one
   * list, WHITE_KEYS and BLACK_KEYS hold exactly the first-octave names, and
   * a name is in a white list exactly when the table says it is white.
   */
  lemma KeyColoursPartition(k: NoteName)
    ensures !(k in WHITE_KEYS && k in BLACK_KEYS)
    ensures !(k in WHITE_KEYS_OCTAVE2 && k in BLACK_KEYS_OCTAVE2)
    ensures k in WHITE_KEYS || k in BLACK_KEYS <==> FirstOctave(k) == k
    ensures k in WHITE_KEYS || k in WHITE_KEYS_OCTAVE2 <==> !Notes(k).isBlack
    ensures k in BLACK_KEYS || k in BLACK_KEYS_OCTAVE2 <==> Notes(k).isBlack
  {
    var (list, i) := ColourPlace(k);
    KeyListColours(list, i);
    if k in WHITE_KEYS {
      var j :| 0 <= j < |WHITE_KEYS| && WHITE_KEYS[j] == k;
      KeyListColours(0, j);
    }
    if k in BLACK_KEYS {
      var j :| 0 <= j < |BLACK_KEYS| && BLACK_KEYS[j] == k;
      KeyListColours(1, j);
    }
    if k in WHITE_KEYS_OCTAVE2 {
      var j :| 0 <= j < |WHITE_KEYS_OCTAVE2| && WHITE_KEYS_OCTAVE2[j] == k;
      KeyListColours(2, j);
    }
    if k in BLACK_KEYS_OCTAVE2 {
      var j :| 0 <= j < |BLACK_KEYS_OCTAVE2| && BLACK_KEYS_OCTAVE2[j] == k;
      KeyListColours(3, j);
    }
    assert ColourList(list)[i] in ColourList(list);
  }

  /** The difficulty table has four distinct values. */
  lemma DifficultiesDistinct()
    ensures |DIFFICULTIES| == 4
    ensures forall i, j :: 0 <= i < j < |DIFFICULTIES| ==> DIFFICULTIES[i].value != DIFFICULTIES[j].value
  {
  }

  /** Every difficulty, the default among them, has an entry in the difficulty table. */
  lemma DifficultyListed(d: Difficulty)
    ensures exists i :: 0 <= i < |DIFFICULTIES| && DIFFICULTIES[i].value == d
    ensures exists i :: 0 <= i < |DIFFICULTIES| && DIFFICULTIES[i].value == DEFAULT_DIFFICULTY
  {
    assert DIFFICULTIES[1].value == DEFAULT_DIFFICULTY;
    if d == 3 {
      assert DIFFICULTIES[0].value == d;
    } else if d == 10 {
      assert DIFFICULTIES[1].value == d;
    } else if d == 25 {
      assert DIFFICULTIES[2].value == d;
    } else {
      assert DIFFICULTIES[3].value == d;
    }
  }
}
