/**
 * The player's settings record and the last-used session choices: defaults
 * overlaid by what storage held at start-up, updated by partial patches.
 * Reading and writing storage and JSON are not modelled; what storage held
 * is passed in.
 */
module Settings {
  import opened Wrappers
  import opened PianoTypes

  /** `defaultSettings`. */
  const DEFAULT_SETTINGS: GameSettings := GameSettings(
    showWhiteKeyLabels := false,
    showBlackKeyLabels := false,
    noteDisplayMode := Staff,
    showIncorrectFeedback := true,
    enableHapticFeedback := true,
    playSoundInSilentMode := true,
    showTimer := true,
    showCorrectAnimation := true,
    showSecondOctave := false)

  /** The patch with no fields. */
  const EMPTY_PATCH: SettingsPatch := SettingsPatch(None, None, None, None, None, None, None, None, None)

  /** `{ ...settings, ...patch }`: each field present in the patch replaces the current one. */
  function ApplyPatch(settings: GameSettings, patch: SettingsPatch): GameSettings {
    GameSettings(
      patch.showWhiteKeyLabels.GetOr(settings.showWhiteKeyLabels),
      patch.showBlackKeyLabels.GetOr(settings.showBlackKeyLabels),
      patch.noteDisplayMode.GetOr(settings.noteDisplayMode),
      patch.showIncorrectFeedback.GetOr(settings.showIncorrectFeedback),
      patch.enableHapticFeedback.GetOr(settings.enableHapticFeedback),
      patch.playSoundInSilentMode.GetOr(settings.playSoundInSilentMode),
      patch.showTimer.GetOr(settings.showTimer),
      patch.showCorrectAnimation.GetOr(settings.showCorrectAnimation),
      patch.showSecondOctave.GetOr(settings.showSecondOctave))
  }

  /** The settings at start-up: stored fields over the defaults, or the defaults when nothing is stored. */
  function LoadedSettings(stored: Option<SettingsPatch>): GameSettings {
    if stored.Some? then ApplyPatch(DEFAULT_SETTINGS, stored.value) else DEFAULT_SETTINGS
  }

  // ---------------------------------------------------------------------
  // A field-by-field view of the record

  datatype SettingKey =
    | ShowWhiteKeyLabels | ShowBlackKeyLabels | NoteDisplayModeKey | ShowIncorrectFeedback
    | EnableHapticFeedback | PlaySoundInSilentMode | ShowTimer | ShowCorrectAnimation | ShowSecondOctave

  datatype SettingValue = Flag(on: bool) | Mode(mode: NoteDisplayMode)

  /** The value of one field of a settings record. */
  function Field(s: GameSettings, key: SettingKey): SettingValue {
    match key
    case ShowWhiteKeyLabels => Flag(s.showWhiteKeyLabels)
    case ShowBlackKeyLabels => Flag(s.showBlackKeyLabels)
    case NoteDisplayModeKey => Mode(s.noteDisplayMode)
    case ShowIncorrectFeedback => Flag(s.showIncorrectFeedback)
    case EnableHapticFeedback => Flag(s.enableHapticFeedback)
    case PlaySoundInSilentMode => Flag(s.playSoundInSilentMode)
    case ShowTimer => Flag(s.showTimer)
    case ShowCorrectAnimation => Flag(s.showCorrectAnimation)
    case ShowSecondOctave => Flag(s.showSecondOctave)
  }

  /** The value a patch gives one field, if it has that field. */
  function PatchField(p: SettingsPatch, key: SettingKey): Option<SettingValue> {
    match key
    case ShowWhiteKeyLabels => if p.showWhiteKeyLabels.Some? then Some(Flag(p.showWhiteKeyLabels.value)) else None
    case ShowBlackKeyLabels => if p.showBlackKeyLabels.Some? then Some(Flag(p.showBlackKeyLabels.value)) else None
    case NoteDisplayModeKey => if p.noteDisplayMode.Some? then Some(Mode(p.noteDisplayMode.value)) else None
    case ShowIncorrectFeedback => if p.showIncorrectFeedback.Some? then Some(Flag(p.showIncorrectFeedback.value)) else None
    case EnableHapticFeedback => if p.enableHapticFeedback.Some? then Some(Flag(p.enableHapticFeedback.value)) else None
    case PlaySoundInSilentMode => if p.playSoundInSilentMode.Some? then Some(Flag(p.playSoundInSilentMode.value)) else None
    case ShowTimer => if p.showTimer.Some? then Some(Flag(p.showTimer.value)) else None
    case ShowCorrectAnimation => if p.showCorrectAnimation.Some? then Some(Flag(p.showCorrectAnimation.value)) else None
    case ShowSecondOctave => if p.showSecondOctave.Some? then Some(Flag(p.showSecondOctave.value)) else None
  }

  /** Two records with the same value in every field are the same record. */
  lemma FieldsDetermineSettings(a: GameSettings, b: GameSettings)
    requires forall key: SettingKey :: Field(a, key) == Field(b, key)
    ensures a == b
  {
    assert Field(a, ShowWhiteKeyLabels) == Field(b, ShowWhiteKeyLabels);
    assert Field(a, ShowBlackKeyLabels) == Field(b, ShowBlackKeyLabels);
    assert Field(a, NoteDisplayModeKey) == Field(b, NoteDisplayModeKey);
    assert Field(a, ShowIncorrectFeedback) == Field(b, ShowIncorrectFeedback);
    assert Field(a, EnableHapticFeedback) == Field(b, EnableHapticFeedback);
    assert Field(a, PlaySoundInSilentMode) == Field(b, PlaySoundInSilentMode);
    assert Field(a, ShowTimer) == Field(b, ShowTimer);
    assert Field(a, ShowCorrectAnimation) == Field(b, ShowCorrectAnimation);
    assert Field(a, ShowSecondOctave) == Field(b, ShowSecondOctave);
  }

  // ---------------------------------------------------------------------
  // Properties of the merge

  /** A field the patch has takes the patch's value; every other field keeps its current value. */
  lemma ApplyPatchFields(s: GameSettings, p: SettingsPatch, key: SettingKey)
    ensures Field(ApplyPatch(s, p), key) ==
      if PatchField(p, key).Some? then PatchField(p, key).value else Field(s, key)
  {
  }

  /** Applying the same patch twice is applying it once. */
  lemma ApplyPatchIdempotent(s: GameSettings, p: SettingsPatch)
    ensures ApplyPatch(ApplyPatch(s, p), p) == ApplyPatch(s, p)
  {
    forall key: SettingKey ensures Field(ApplyPatch(ApplyPatch(s, p), p), key) == Field(ApplyPatch(s, p), key) {
      ApplyPatchFields(ApplyPatch(s, p), p, key);
      ApplyPatchFields(s, p, key);
    }
    FieldsDetermineSettings(ApplyPatch(ApplyPatch(s, p), p), ApplyPatch(s, p));
  }

  /** The empty patch changes nothing. */
  lemma EmptyPatchIsIdentity(s: GameSettings)
    ensures ApplyPatch(s, EMPTY_PATCH) == s
  {
    forall key: SettingKey ensures Field(ApplyPatch(s, EMPTY_PATCH), key) == Field(s, key) {
      ApplyPatchFields(s, EMPTY_PATCH, key);
    }
    FieldsDetermineSettings(ApplyPatch(s, EMPTY_PATCH), s);
  }

  /**
   * At start-up, a field stored takes the stored value and every field not
   * stored (a setting added since the record was saved) has its default;
   * with nothing stored every field has its default.
   */
  lemma LoadedSettingsFields(stored: Option<SettingsPatch>, key: SettingKey)
    ensures stored.None? ==> LoadedSettings(stored) == DEFAULT_SETTINGS
    ensures stored.Some? && PatchField(stored.value, key).Some? ==>
      Field(LoadedSettings(stored), key) == PatchField(stored.value, key).value
    ensures stored.Some? && PatchField(stored.value, key).None? ==>
      Field(LoadedSettings(stored), key) == Field(DEFAULT_SETTINGS, key)
  {
    if stored.Some? {
      ApplyPatchFields(DEFAULT_SETTINGS, stored.value, key);
    }
  }

  /** Only white-key labels stored: they are shown, and the newer settings keep their defaults. */
  lemma LoadedSettingsExample()
    ensures var s := LoadedSettings(Some(EMPTY_PATCH.(showWhiteKeyLabels := Some(true))));
      s.showWhiteKeyLabels && !s.showSecondOctave && s.showCorrectAnimation && s.noteDisplayMode == Staff
  {
  }

  // ---------------------------------------------------------------------
  // The settings hook's state

  /**
   * The state of `useGameSettings`: the settings record and the last
   * difficulty level and note count chosen. The level and count types and
   * their defaults belong to the screens and are taken as given.
   */
  class SettingsStore {
    var settings: GameSettings
    var lastDifficultyLevel: string
    var lastNoteCount: int

    constructor(defaultLevel: string, defaultCount: int)
      ensures settings == DEFAULT_SETTINGS
      ensures lastDifficultyLevel == defaultLevel && lastNoteCount == defaultCount
    {
      settings := DEFAULT_SETTINGS;
      lastDifficultyLevel := defaultLevel;
      lastNoteCount := defaultCount;
    }

    /** The load at mount: each stored item replaces its value; items not stored leave theirs. */
    method Load(storedSettings: Option<SettingsPatch>, storedLevel: Option<string>, storedCount: Option<int>)
      modifies this
      ensures settings == if storedSettings.Some? then LoadedSettings(storedSettings) else old(settings)
      ensures lastDifficultyLevel == storedLevel.GetOr(old(lastDifficultyLevel))
      ensures lastNoteCount == storedCount.GetOr(old(lastNoteCount))
    {
      if storedSettings.Some? {
        settings := LoadedSettings(storedSettings);
      }
      if storedLevel.Some? {
        lastDifficultyLevel := storedLevel.value;
      }
      if storedCount.Some? {
        lastNoteCount := storedCount.value;
      }
    }

    /** `updateSettings(patch)`: the patch is merged over the current settings; nothing else changes. */
    method UpdateSettings(patch: SettingsPatch)
      modifies this
      ensures settings == ApplyPatch(old(settings), patch)
      ensures lastDifficultyLevel == old(lastDifficultyLevel) && lastNoteCount == old(lastNoteCount)
    {
      settings := ApplyPatch(settings, patch);
    }

    /** `saveLastDifficultyLevel(level)`: only the last level changes. */
    method SaveLastDifficultyLevel(level: string)
      modifies this
      ensures lastDifficultyLevel == level
      ensures settings == old(settings) && lastNoteCount == old(lastNoteCount)
    {
      lastDifficultyLevel := level;
    }

    /** `saveLastNoteCount(count)`: only the last note count changes. */
    method SaveLastNoteCount(count: int)
      modifies this
      ensures lastNoteCount == count
      ensures settings == old(settings) && lastDifficultyLevel == old(lastDifficultyLevel)
    {
      lastNoteCount := count;
    }
  }
}
