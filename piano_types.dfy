/**
 * The game's data model: note names, difficulties, generated notes, the
 * session record, per-key feedback, persisted scores and the settings
 * record.
 */
module PianoTypes {
  import opened Wrappers

  /** The nineteen note identities: twelve first-octave names and seven second-octave ones. */
  datatype NoteName =
    | C | Cs | D | Ds | E | F | Fs | G | Gs | A | As | B
    | C2 | Cs2 | D2 | Ds2 | E2 | F2 | Fs2

  /** The string the source uses for each note name ('C#', 'C#2', ...). */
  function NameOf(n: NoteName): string {
    match n
    case C => "C"
    case Cs => "C#"
    case D => "D"
    case Ds => "D#"
    case E => "E"
    case F => "F"
    case Fs => "F#"
    case G => "G"
    case Gs => "G#"
    case A => "A"
    case As => "A#"
    case B => "B"
    case C2 => "C2"
    case Cs2 => "C#2"
    case D2 => "D2"
    case Ds2 => "D#2"
    case E2 => "E2"
    case F2 => "F2"
    case Fs2 => "F#2"
  }

  /** A difficulty is the number of notes in a session: 3, 10, 25 or 100. */
  type Difficulty = d: int | d == 3 || d == 10 || d == 25 || d == 100 witness 10

  /** A generated note: its name, the spelling shown to the player, key colour and sound. */
  datatype Note = Note(name: NoteName, displayName: string, isBlack: bool, soundFile: string)

  datatype GameStatus = Idle | Playing | Paused | Finished

  /** The session record; `startTime` is `null` until a session starts. */
  datatype GameState = GameState(
    status: GameStatus,
    difficulty: Difficulty,
    currentNoteIndex: nat,
    notes: seq<Note>,
    startTime: Option<int>,
    elapsedMs: int,
    accuracy: real,
    correctCount: nat,
    incorrectCount: nat)

  /** The transient colour of a key after a press. */
  datatype KeyFeedback = NoFeedback | CorrectFeedback | IncorrectFeedback

  /** A persisted result. `accuracy` is a percentage, 0 to 100 in the tests of hooks/__tests__/useProgress-test.ts:39 and utils/__tests__/scoring-test.ts. */
  datatype GameScore = GameScore(
    id: string,
    difficulty: Difficulty,
    accuracy: real,
    elapsedMs: int,
    timestamp: int)

  datatype NoteDisplayMode = Text | Staff

  datatype GameSettings = GameSettings(
    showWhiteKeyLabels: bool,
    showBlackKeyLabels: bool,
    noteDisplayMode: NoteDisplayMode,
    showIncorrectFeedback: bool,
    enableHapticFeedback: bool,
    playSoundInSilentMode: bool,
    showTimer: bool,
    showCorrectAnimation: bool,
    showSecondOctave: bool)

  /** `Partial<GameSettings>`: each field either present with a value or absent. */
  datatype SettingsPatch = SettingsPatch(
    showWhiteKeyLabels: Option<bool>,
    showBlackKeyLabels: Option<bool>,
    noteDisplayMode: Option<NoteDisplayMode>,
    showIncorrectFeedback: Option<bool>,
    enableHapticFeedback: Option<bool>,
    playSoundInSilentMode: Option<bool>,
    showTimer: Option<bool>,
    showCorrectAnimation: Option<bool>,
    showSecondOctave: Option<bool>)
}
