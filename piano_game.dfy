/**
 * The game session engine: note generation, and the state machine over
 * the session record driven by start, key presses, pause, resume, reset,
 * the 100 ms clock tick and the 300 ms feedback-clear timeouts.
 *
 * The clock is the `now` parameter of each event; `Math.random` is a
 * stream of values in [0, 1) handed to the generator.
 */
module PianoGame {
  import opened Wrappers
  import opened PianoTypes
  import opened PianoConfig
  import opened JsString
  import GameUtils

  // ---------------------------------------------------------------------
  // Octave folding

  /** `NOTE_TO_BASE`: second-octave names fold onto first-octave names; 'F#2' has no entry. */
  function NoteToBase(n: NoteName): Option<NoteName> {
    match n
    case C2 => Some(C)
    case Cs2 => Some(Cs)
    case D2 => Some(D)
    case Ds2 => Some(Ds)
    case E2 => Some(E)
    case F2 => Some(F)
    case Fs2 => None
    case _ => Some(n)
  }

  /** NOTE_TO_BASE is the first-octave fold everywhere except at its missing 'F#2' entry. */
  lemma NoteToBaseFolds(n: NoteName)
    ensures NoteToBase(n) == if n == Fs2 then None else Some(FirstOctave(n))
    ensures NoteToBase(n).Some? ==> NameOf(NoteToBase(n).value) == GameUtils.GetBaseNoteName(NameOf(n))
  {
    SecondOctaveSharesSound(n);
  }

  /**
   * Because the lookup compares possibly-missing entries, a press of 'F#2'
   * matches only a current 'F#2', and a press of 'F#' does not match it.
   */
  lemma MissingEntryMatchesOnlyItself(n: NoteName)
    ensures NoteToBase(n) == NoteToBase(Fs2) <==> n == Fs2
    ensures NoteToBase(Fs) != NoteToBase(Fs2)
  {
  }

  // ---------------------------------------------------------------------
  // Note generation

  /** `Math.floor(r * n)` for a random value `r` in [0, 1). */
  function RandomIndex(r: real, n: nat): (i: nat)
    requires 0.0 <= r < 1.0 && n > 0
    ensures i < n
  {
    assert r * (n as real) < n as real by {
      assert (1.0 - r) * (n as real) > 0.0;
    }
    (r * (n as real)).Floor
  }

  /** The spellings generation may show for `k`: the sharp/flat pair, or the name without its '2'. */
  function DisplayNameChoices(k: NoteName): (choices: seq<string>)
    ensures |choices| == if Notes(k).isBlack then 2 else 1
  {
    SharpDisplayNamesWellFormed(k);
    match SharpDisplayNames(k)
    case Some((sharp, flat)) => [sharp, flat]
    case None => [ReplaceFirst(NameOf(k), '2', "")]
  }

  /** A note as generation builds it from the note table. */
  predicate FromTable(n: Note) {
    n.isBlack == Notes(n.name).isBlack &&
    n.soundFile == Notes(n.name).soundFile &&
    n.displayName in DisplayNameChoices(n.name)
  }

  /** Every note comes from the table, and no two neighbours share a name. */
  predicate WellGenerated(notes: seq<Note>) {
    (forall i :: 0 <= i < |notes| ==> FromTable(notes[i])) &&
    (forall i :: 0 < i < |notes| ==> notes[i].name != notes[i - 1].name)
  }

  /** Without a sharp/flat pair, the spelling is the name with its first '2' removed. */
  lemma PlainSpellingIsChoice(k: NoteName)
    requires SharpDisplayNames(k).None?
    ensures ReplaceFirst(NameOf(k), '2', "") in DisplayNameChoices(k)
  {
  }

  /** Either member of a sharp/flat pair is a spelling generation may show. */
  lemma VariantIsChoice(k: NoteName, first: bool)
    requires SharpDisplayNames(k).Some?
    ensures (if first then SharpDisplayNames(k).value.0 else SharpDisplayNames(k).value.1) in DisplayNameChoices(k)
  {
  }

  /** The note built from the table entry of `k` with an allowed spelling. */
  lemma TableNote(k: NoteName, displayName: string)
    requires displayName in DisplayNameChoices(k)
    ensures FromTable(Note(k, displayName, Notes(k).isBlack, Notes(k).soundFile))
  {
  }

  /** The values `Math.random` returns, in [0, 1). */
  predicate RandomStream(randoms: seq<real>) {
    forall j :: 0 <= j < |randoms| ==> 0.0 <= randoms[j] < 1.0
  }

  /** The key one random value draws: `KEY_ORDER[Math.floor(r * KEY_ORDER.length)]`. */
  function KeyOf(r: real): NoteName
    requires 0.0 <= r < 1.0
  {
    KEY_ORDER[RandomIndex(r, |KEY_ORDER|)]
  }

  /**
   * The do-while draw from position `used`: keys are drawn until one differs
   * from `previous`. The key and the position after it, or None when the
   * stream runs out first.
   */
  function DrawKey(randoms: seq<real>, used: nat, previous: Option<NoteName>): (r: Option<(NoteName, nat)>)
    requires RandomStream(randoms) && used <= |randoms|
    ensures r.Some? ==> Some(r.value.0) != previous && used < r.value.1 <= |randoms|
    decreases |randoms| - used
  {
    if used == |randoms| then None
    else if Some(KeyOf(randoms[used])) == previous then DrawKey(randoms, used + 1, previous)
    else Some((KeyOf(randoms[used]), used + 1))
  }

  /**
   * What one pass of the generation loop decides: the key, and for a key
   * with a sharp/flat pair whether the spelling draw picked the first
   * (`Math.random() < 0.5`-style index 0) of the two.
   */
  datatype Draw = Draw(key: NoteName, spelling: Option<bool>)

  /**
   * The keys `SHARP_DISPLAY_NAMES` has an entry for, as a plain test on the
   * key (the spellings themselves are looked up only to show the note).
   */
  predicate HasSpellingPair(k: NoteName) {
    k.Cs? || k.Ds? || k.Fs? || k.Gs? || k.As? || k.Cs2? || k.Ds2? || k.Fs2?
  }

  lemma HasSpellingPairIsEntry(k: NoteName)
    ensures HasSpellingPair(k) <==> SharpDisplayNames(k).Some?
  {
  }

  /**
   * One pass drawn from position `used`: the key draw, then the spelling
   * draw for a key with a sharp/flat pair. The draw and the position after
   * it, or None when the stream runs out first.
   */
  function DrawNote(randoms: seq<real>, used: nat, previous: Option<NoteName>): (r: Option<(Draw, nat)>)
    requires RandomStream(randoms) && used <= |randoms|
    ensures r.Some? ==> Some(r.value.0.key) != previous && used < r.value.1 <= |randoms|
  {
    match DrawKey(randoms, used, previous)
    case None => None
    case Some((k, u)) =>
      if HasSpellingPair(k) then
        if u == |randoms| then None
        else Some((Draw(k, Some(RandomIndex(randoms[u], 2) == 0)), u + 1))
      else Some((Draw(k, None), u))
  }

  /** DrawNote once the key draw is known to stop at `k`, position `u`. */
  lemma DrawNoteAfterKey(randoms: seq<real>, used: nat, previous: Option<NoteName>, k: NoteName, u: nat)
    requires RandomStream(randoms) && used <= |randoms|
    requires DrawKey(randoms, used, previous) == Some((k, u))
    ensures !HasSpellingPair(k) ==> DrawNote(randoms, used, previous) == Some((Draw(k, None), u))
    ensures HasSpellingPair(k) && u == |randoms| ==> DrawNote(randoms, used, previous).None?
    ensures HasSpellingPair(k) && u < |randoms| ==>
      DrawNote(randoms, used, previous) == Some((Draw(k, Some(RandomIndex(randoms[u], 2) == 0)), u + 1))
  {
  }

  /** After the key draw, at most one more value is read, and one is enough. */
  lemma SpellingReadsAtMostOne(randoms: seq<real>, used: nat, previous: Option<NoteName>, k: NoteName, u: nat)
    requires RandomStream(randoms) && used <= |randoms|
    requires DrawKey(randoms, used, previous) == Some((k, u))
    ensures u < |randoms| ==> DrawNote(randoms, used, previous).Some?
    ensures DrawNote(randoms, used, previous).Some? ==>
      DrawNote(randoms, used, previous).value.0.key == k && DrawNote(randoms, used, previous).value.1 <= u + 1
  {
    DrawNoteAfterKey(randoms, used, previous, k, u);
  }

  /**
   * The note a draw shows: the table entry of its key, spelt with the picked
   * member of its sharp/flat pair or, without a pair, with its name's first
   * '2' removed.
   */
  function NoteOf(d: Draw): (n: Note)
    ensures n.name == d.key
  {
    var k := d.key;
    var first := d.spelling != Some(false);
    Note(k, SpellingOf(k, first), Notes(k).isBlack, Notes(k).soundFile)
  }

  /**
   * Every note a draw shows is a table note with an allowed spelling. Kept
   * out of NoteOf's own contract so that only the proofs that need the
   * table look into it.
   */
  lemma NoteOfFromTable(d: Draw)
    ensures FromTable(NoteOf(d))
  {
    SpellingAllowed(d.key, d.spelling != Some(false));
    TableNote(d.key, SpellingOf(d.key, d.spelling != Some(false)));
  }

  /**
   * The spelling generation shows for `k`: the first or second member of
   * its sharp/flat pair, or without a pair the name with its first '2' removed.
   */
  function SpellingOf(k: NoteName, first: bool): string {
    if SharpDisplayNames(k).Some? then
      if first then SharpDisplayNames(k).value.0 else SharpDisplayNames(k).value.1
    else
      ReplaceFirst(NameOf(k), '2', "")
  }

  /** Whichever way the spelling draw falls, the spelling is one generation may show. */
  lemma SpellingAllowed(k: NoteName, first: bool)
    ensures SpellingOf(k, first) in DisplayNameChoices(k)
  {
    if SharpDisplayNames(k).Some? {
      VariantIsChoice(k, first);
    } else {
      PlainSpellingIsChoice(k);
    }
  }

  /** `s.map(f)`: `f` applied to every element, in order. */
  function MapSeq<A, B>(f: A -> B, s: seq<A>): (r: seq<B>)
    ensures |r| == |s| && forall i :: 0 <= i < |s| ==> r[i] == f(s[i])
  {
    if s == [] then [] else MapSeq(f, s[..|s| - 1]) + [f(s[|s| - 1])]
  }

  /** Mapping one more element appends its image. */
  lemma MapSeqAppend<A, B>(f: A -> B, s: seq<A>, x: A)
    ensures MapSeq(f, s + [x]) == MapSeq(f, s) + [f(x)]
  {
    assert (s + [x])[..|s|] == s;
  }

  /** The notes a run of draws shows, in order. */
  function NotesOf(draws: seq<Draw>): seq<Note> {
    MapSeq(NoteOf, draws)
  }

  /** One step of Generate: the first draw, then the rest after it. */
  lemma GenerateStep(count: nat, randoms: seq<real>, used: nat, previous: Option<NoteName>)
    requires RandomStream(randoms) && used <= |randoms| && count > 0
    ensures DrawNote(randoms, used, previous).None? ==>
      Generate(count, randoms, used, previous) == ([], false, |randoms|)
    ensures DrawNote(randoms, used, previous).Some? ==>
      var (d, u) := DrawNote(randoms, used, previous).value;
      var rest := Generate(count - 1, randoms, u, Some(d.key));
      Generate(count, randoms, used, previous) == ([d] + rest.0, rest.1, rest.2)
  {
  }

  /**
   * The draws made so far, followed by what generation of the `left` notes
   * still to come gives from position `used` after `previous`, make up the
   * whole generation of `count` notes.
   */
  ghost predicate Continues(count: nat, randoms: seq<real>, draws: seq<Draw>,
                            left: nat, used: nat, previous: Option<NoteName>)
    requires RandomStream(randoms) && used <= |randoms|
  {
    var g := Generate(left, randoms, used, previous);
    Generate(count, randoms, 0, None) == (draws + g.0, g.1, g.2)
  }

  lemma ContinuesFromStart(count: nat, randoms: seq<real>)
    requires RandomStream(randoms)
    ensures Continues(count, randoms, [], count, 0, None)
  {
    assert [] + Generate(count, randoms, 0, None).0 == Generate(count, randoms, 0, None).0;
  }

  lemma ContinuesStep(count: nat, randoms: seq<real>, draws: seq<Draw>,
                      left: nat, used: nat, previous: Option<NoteName>)
    requires RandomStream(randoms) && used <= |randoms| && left > 0
    requires Continues(count, randoms, draws, left, used, previous)
    requires DrawNote(randoms, used, previous).Some?
    ensures var (d, u) := DrawNote(randoms, used, previous).value;
      Continues(count, randoms, draws + [d], left - 1, u, Some(d.key))
  {
    var (d, u) := DrawNote(randoms, used, previous).value;
    var rest := Generate(left - 1, randoms, u, Some(d.key)).0;
    assert draws + ([d] + rest) == (draws + [d]) + rest;
  }

  /** The loop's step: the next draw and the note it shows extend both the draws and the notes. */
  lemma ContinuesShown(count: nat, randoms: seq<real>, draws: seq<Draw>, notes: seq<Note>,
                       left: nat, used: nat, previous: Option<NoteName>, shown: Note, next: nat)
    requires RandomStream(randoms) && used <= |randoms| && left > 0
    requires Continues(count, randoms, draws, left, used, previous) && notes == NotesOf(draws)
    requires DrawNote(randoms, used, previous).Some?
    requires shown == NoteOf(DrawNote(randoms, used, previous).value.0)
    requires next == DrawNote(randoms, used, previous).value.1
    ensures var d := DrawNote(randoms, used, previous).value.0;
      next <= |randoms| && Continues(count, randoms, draws + [d], left - 1, next, Some(shown.name)) &&
      notes + [shown] == NotesOf(draws + [d])
  {
    ContinuesStep(count, randoms, draws, left, used, previous);
    MapSeqAppend(NoteOf, draws, DrawNote(randoms, used, previous).value.0);
  }

  lemma ContinuesToEnd(count: nat, randoms: seq<real>, draws: seq<Draw>,
                       left: nat, used: nat, previous: Option<NoteName>)
    requires RandomStream(randoms) && used <= |randoms| && left > 0
    requires Continues(count, randoms, draws, left, used, previous)
    requires DrawNote(randoms, used, previous).None?
    ensures Generate(count, randoms, 0, None) == (draws, false, |randoms|)
  {
    assert draws + [] == draws;
  }

  lemma ContinuesDone(count: nat, randoms: seq<real>, draws: seq<Draw>, used: nat, previous: Option<NoteName>)
    requires RandomStream(randoms) && used <= |randoms|
    requires Continues(count, randoms, draws, 0, used, previous)
    ensures Generate(count, randoms, 0, None) == (draws, true, used)
  {
    assert draws + [] == draws;
  }

  /** Adjacent draws never share a key. */
  predicate NoRepeatedKeys(draws: seq<Draw>) {
    forall i :: 0 < i < |draws| ==> draws[i].key != draws[i - 1].key
  }

  /** The notes of draws without adjacent keys in common are well generated. */
  lemma GeneratedNotes(draws: seq<Draw>)
    requires NoRepeatedKeys(draws)
    ensures WellGenerated(NotesOf(draws))
  {
    forall i | 0 <= i < |draws| {
      NoteOfFromTable(draws[i]);
    }
  }

  /**
   * `generateRandomNotes(count)` read from position `used` of the stream,
   * after the key `previous`: the draws, whether all `count` were made, and
   * the position after the last value read. When the stream runs out, the
   * draws made so far are kept and the whole stream counts as read.
   */
  function Generate(count: nat, randoms: seq<real>, used: nat, previous: Option<NoteName>): (r: (seq<Draw>, bool, nat))
    requires RandomStream(randoms) && used <= |randoms|
    decreases count
  {
    if count == 0 then ([], true, used)
    else
      match DrawNote(randoms, used, previous)
      case None => ([], false, |randoms|)
      case Some((d, u)) =>
        var rest := Generate(count - 1, randoms, u, Some(d.key));
        ([d] + rest.0, rest.1, rest.2)
  }

  /**
   * Generation's promises: adjacent keys differ (the first from `previous`);
   * exactly `count` draws when it succeeds; failure only once the whole
   * stream is read.
   */
  lemma {:induction false} GenerateOutcome(count: nat, randoms: seq<real>, used: nat, previous: Option<NoteName>)
    requires RandomStream(randoms) && used <= |randoms|
    ensures NoRepeatedKeys(Generate(count, randoms, used, previous).0)
    ensures var draws := Generate(count, randoms, used, previous).0;
      draws != [] && previous.Some? ==> draws[0].key != previous.value
    ensures Generate(count, randoms, used, previous).1 ==> |Generate(count, randoms, used, previous).0| == count
    ensures !Generate(count, randoms, used, previous).1 ==> Generate(count, randoms, used, previous).2 == |randoms|
    ensures used <= Generate(count, randoms, used, previous).2 <= |randoms|
    decreases count
  {
    var drawn := DrawNote(randoms, used, previous);
    if count > 0 && drawn.Some? {
      var (d, u) := drawn.value;
      var rest := Generate(count - 1, randoms, u, Some(d.key));
      assert Generate(count, randoms, used, previous) == ([d] + rest.0, rest.1, rest.2);
      GenerateOutcome(count - 1, randoms, u, Some(d.key));
      var all := [d] + rest.0;
      assert forall i :: 0 < i < |all| ==> all[i] == rest.0[i - 1];
    }
  }

  /** Generation from the start of the stream shows well-generated notes, `count` of them when it succeeds. */
  lemma GeneratedFromStart(count: nat, randoms: seq<real>)
    requires RandomStream(randoms)
    ensures var (draws, ok, used) := Generate(count, randoms, 0, None);
      WellGenerated(NotesOf(draws)) && (ok ==> |draws| == count) &&
      (!ok ==> used == |randoms|) && used <= |randoms|
  {
    GenerateOutcome(count, randoms, 0, None);
    GeneratedNotes(Generate(count, randoms, 0, None).0);
  }

  /** No value of the stream draws the same key as either of the two values before it. */
  predicate NoNearRepeats(randoms: seq<real>)
    requires RandomStream(randoms)
  {
    forall j, k :: 0 <= j < k < |randoms| && k <= j + 2 ==> KeyOf(randoms[j]) != KeyOf(randoms[k])
  }

  /**
   * Generation succeeds on a stream of at least two values per note in which
   * no key draw repeats either of the two values before it. The previous key,
   * if any, was drawn at position `p`, one or two places back, so no redraw
   * is ever needed and each note reads at most two values.
   */
  lemma {:induction false} GenerateSucceeds(count: nat, randoms: seq<real>, used: nat,
                                            previous: Option<NoteName>, p: int)
    requires RandomStream(randoms) && NoNearRepeats(randoms) && used <= |randoms|
    requires previous.Some? ==> 0 <= p < used <= p + 2 && previous == Some(KeyOf(randoms[p]))
    requires used + 2 * count <= |randoms|
    ensures Generate(count, randoms, used, previous).1
    decreases count
  {
    if count > 0 {
      var k := KeyOf(randoms[used]);
      assert Some(k) != previous by {
        if previous.Some? {
          assert KeyOf(randoms[p]) != KeyOf(randoms[used]);
        }
      }
      assert DrawKey(randoms, used, previous) == Some((k, used + 1));
      SpellingReadsAtMostOne(randoms, used, previous, k, used + 1);
      GenerateStep(count, randoms, used, previous);
      var drawn := DrawNote(randoms, used, previous).value;
      GenerateSucceeds(count - 1, randoms, drawn.1, Some(k), used);
    }
  }

  /** A draw repeating the previous key is drawn again: 0.0, 0.0, 0.12 give C, then D after one redraw. */
  lemma GenerateRedrawExample()
    ensures RandomStream([0.0, 0.0, 0.12])
    ensures var (draws, ok, used) := Generate(2, [0.0, 0.0, 0.12], 0, None);
      ok && used == 3 && draws == [Draw(C, None), Draw(D, None)]
  {
    var s := [0.0, 0.0, 0.12];
    assert KeyOf(s[0]) == C && KeyOf(s[1]) == C && KeyOf(s[2]) == D;
    assert DrawKey(s, 0, None) == Some((C, 1));
    assert DrawKey(s, 1, Some(C)) == Some((D, 3));
  }

  /**
   * One pass of the `generateRandomNotes` loop body from position `used`:
   * the do-while key draw against `previousNote`, then the spelling draw.
   * It reads the stream as DrawNote describes and builds its draw's note;
   * `drawn` is None when the stream runs out, and then the whole stream has
   * been read.
   */
  method DrawNextNote(randoms: seq<real>, used: nat, previousNote: Option<NoteName>)
    returns (drawn: Option<Note>, next: nat)
    requires RandomStream(randoms) && used <= |randoms|
    ensures drawn.Some? <==> DrawNote(randoms, used, previousNote).Some?
    ensures drawn.Some? ==>
      drawn.value == NoteOf(DrawNote(randoms, used, previousNote).value.0) &&
      next == DrawNote(randoms, used, previousNote).value.1
    ensures drawn.None? ==> next == |randoms|
  {
    drawn, next := None, |randoms|;
    if used == |randoms| {
      return;
    }
    var cursor := used;
    var note := KeyOf(randoms[cursor]);
    cursor := cursor + 1;
    // the do-while resampling against the previous note
    while Some(note) == previousNote
      invariant used < cursor <= |randoms|
      invariant DrawKey(randoms, used, previousNote) ==
        if Some(note) == previousNote then DrawKey(randoms, cursor, previousNote) else Some((note, cursor))
      decreases |randoms| - cursor
    {
      if cursor == |randoms| {
        return;
      }
      note := KeyOf(randoms[cursor]);
      cursor := cursor + 1;
    }
    DrawNoteAfterKey(randoms, used, previousNote, note, cursor);
    HasSpellingPairIsEntry(note);
    var noteData := Notes(note);
    var displayName := ReplaceFirst(NameOf(note), '2', "");
    if SharpDisplayNames(note).Some? {
      if cursor == |randoms| {
        return;
      }
      var variants := SharpDisplayNames(note).value;
      var first := RandomIndex(randoms[cursor], 2) == 0;
      displayName := if first then variants.0 else variants.1;
      cursor := cursor + 1;
    }
    drawn, next := Some(Note(note, displayName, noteData.isBlack, noteData.soundFile)), cursor;
  }

  /**
   * `generateRandomNotes(count)`, drawing its random values from `randoms`
   * in the order the source calls `Math.random`: it shows the draws
   * Generate describes and reads as far as Generate does. `ok` is false
   * only when the stream ran out before `count` notes were drawn.
   */
  method GenerateRandomNotes(count: nat, randoms: seq<real>) returns (notes: seq<Note>, ok: bool, used: nat)
    requires RandomStream(randoms)
    ensures var (draws, success, next) := Generate(count, randoms, 0, None);
      notes == NotesOf(draws) && ok == success && used == next
    ensures used <= |randoms|
    ensures ok ==> |notes| == count
    ensures !ok ==> used == |randoms|
    ensures WellGenerated(notes)
  {
    notes := [];
    used := 0;
    ok := false;
    var previousNote: Option<NoteName> := None;
    var left := count;
    ghost var draws: seq<Draw> := [];
    ContinuesFromStart(count, randoms);
    while left > 0
      invariant used <= |randoms| && notes == NotesOf(draws)
      invariant Continues(count, randoms, draws, left, used, previousNote)
    {
      ghost var start := used;
      var drawn;
      drawn, used := DrawNextNote(randoms, used, previousNote);
      if drawn.None? {
        ContinuesToEnd(count, randoms, draws, left, start, previousNote);
        assert notes == NotesOf(Generate(count, randoms, 0, None).0);
        GeneratedFromStart(count, randoms);
        return;
      }
      ContinuesShown(count, randoms, draws, notes, left, start, previousNote, drawn.value, used);
      notes := notes + [drawn.value];
      draws := draws + [DrawNote(randoms, start, previousNote).value.0];
      previousNote := Some(drawn.value.name);
      left := left - 1;
    }
    ContinuesDone(count, randoms, draws, used, previousNote);
    assert notes == NotesOf(Generate(count, randoms, 0, None).0);
    GeneratedFromStart(count, randoms);
    ok := true;
  }

  // ---------------------------------------------------------------------
  // The session record and its transitions

  /** `initialState`. */
  const INITIAL_STATE: GameState := GameState(Idle, DEFAULT_DIFFICULTY, 0, [], None, 0, 0.0, 0, 0)

  /** `prev.startTime || now`: a missing or zero start time falls back to now. */
  function StartOr(st: GameState, now: int): int {
    if st.startTime.Some? && st.startTime.value != 0 then st.startTime.value else now
  }

  /** The timer effect keeps a 100 ms interval exactly while playing with a (truthy) start time. */
  predicate TimerShouldRun(st: GameState) {
    st.status == Playing && st.startTime.Some? && st.startTime.value != 0
  }

  /** The accuracy recorded when a session finishes: correct over all presses, 0 with no presses. */
  function FinalAccuracy(correct: nat, incorrect: nat): real {
    if correct + incorrect > 0 then correct as real / (correct + incorrect) as real else 0.0
  }

  /**
   * What holds of every reachable session record: idle is the initial
   * record up to difficulty; while playing or paused the index is the number
   * of correct presses and points into the notes; a finished session has
   * answered every note, stays on the last one and records its accuracy.
   */
  ghost predicate SessionInv(st: GameState) {
    match st.status
    case Idle => st == INITIAL_STATE.(difficulty := st.difficulty)
    case Playing | Paused =>
      st.startTime.Some? &&
      st.currentNoteIndex == st.correctCount < |st.notes| &&
      st.accuracy == 0.0
    case Finished =>
      st.startTime.Some? &&
      0 < |st.notes| == st.correctCount &&
      st.currentNoteIndex == |st.notes| - 1 &&
      st.accuracy == FinalAccuracy(st.correctCount, st.incorrectCount)
  }

  lemma InitialStateInv()
    ensures SessionInv(INITIAL_STATE)
  {
  }

  /** The record `startGame(diff)` installs. */
  function Started(diff: Difficulty, notes: seq<Note>, now: int): (st: GameState)
    requires |notes| == diff
    ensures SessionInv(st)
    ensures TimerShouldRun(st) <==> now != 0
  {
    GameState(Playing, diff, 0, notes, Some(now), 0, 0.0, 0, 0)
  }

  /** A press is correct when its octave fold equals the current note's (missing equals missing). */
  predicate IsCorrectPress(st: GameState, pressed: NoteName)
    requires st.currentNoteIndex < |st.notes|
  {
    NoteToBase(pressed) == NoteToBase(st.notes[st.currentNoteIndex].name)
  }

  /** The record after `handleKeyPress(pressed)` at time `now`. */
  function AfterPress(st: GameState, pressed: NoteName, now: int): (r: GameState)
    requires SessionInv(st)
    ensures SessionInv(r)
    ensures r.notes == st.notes && r.difficulty == st.difficulty
  {
    if st.status != Playing then st
    else if IsCorrectPress(st, pressed) then
      var nextIndex := st.currentNoteIndex + 1;
      if nextIndex >= |st.notes| then
        var correct := st.correctCount + 1;
        st.(status := Finished,
            elapsedMs := now - StartOr(st, now),
            correctCount := correct,
            accuracy := FinalAccuracy(correct, st.incorrectCount))
      else
        st.(currentNoteIndex := nextIndex, correctCount := st.correctCount + 1)
    else
      st.(incorrectCount := st.incorrectCount + 1)
  }

  /**
   * A press outside play changes nothing. A press in play adds one to exactly
   * one counter, the correct one exactly when the press matches; the session
   * finishes exactly on a correct press of the last note, taking the elapsed
   * time then, and otherwise keeps playing on the same clock.
   */
  lemma PressOutcome(st: GameState, pressed: NoteName, now: int)
    requires SessionInv(st)
    ensures var r := AfterPress(st, pressed, now);
      (st.status != Playing ==> r == st) &&
      (st.status == Playing ==>
        r.correctCount + r.incorrectCount == st.correctCount + st.incorrectCount + 1 &&
        (r.correctCount == st.correctCount + 1 <==> IsCorrectPress(st, pressed)) &&
        (r.status == Finished <==> IsCorrectPress(st, pressed) && st.currentNoteIndex == |st.notes| - 1) &&
        (r.status != Finished ==> r.status == Playing && r.startTime == st.startTime && r.elapsedMs == st.elapsedMs) &&
        (r.status == Finished ==> r.elapsedMs == now - StartOr(st, now)))
  {
  }

  /** The record after `pauseGame()`. */
  function AfterPause(st: GameState, now: int): (r: GameState)
    requires SessionInv(st)
    ensures SessionInv(r)
    ensures r.notes == st.notes && r.difficulty == st.difficulty
  {
    if st.status != Playing then st
    else st.(status := Paused, elapsedMs := now - StartOr(st, now))
  }

  /** Pausing acts only while playing: it stops the timer and records the time played so far. */
  lemma PauseOutcome(st: GameState, now: int)
    requires SessionInv(st)
    ensures var r := AfterPause(st, now);
      !TimerShouldRun(r) &&
      (st.status != Playing ==> r == st) &&
      (st.status == Playing ==>
        r.status == Paused && r.elapsedMs == now - StartOr(st, now) &&
        r.currentNoteIndex == st.currentNoteIndex && r.startTime == st.startTime &&
        r.correctCount == st.correctCount && r.incorrectCount == st.incorrectCount)
  {
  }

  /** The record after `resumeGame()`. */
  function AfterResume(st: GameState, now: int): (r: GameState)
    requires SessionInv(st)
    ensures SessionInv(r)
    ensures r.notes == st.notes && r.difficulty == st.difficulty
  {
    if st.status != Paused then st
    else st.(status := Playing, startTime := Some(now - st.elapsedMs))
  }

  /** Resuming acts only while paused: it backdates the start so that start plus played time is now. */
  lemma ResumeOutcome(st: GameState, now: int)
    requires SessionInv(st)
    ensures var r := AfterResume(st, now);
      (st.status != Paused ==> r == st) &&
      (st.status == Paused ==>
        r.status == Playing && r.startTime.Some? && r.startTime.value + st.elapsedMs == now &&
        r.elapsedMs == st.elapsedMs && r.currentNoteIndex == st.currentNoteIndex &&
        r.correctCount == st.correctCount && r.incorrectCount == st.incorrectCount)
  {
  }

  /** The record after an interval tick at `now`; there is no interval unless the timer runs. */
  function AfterTick(st: GameState, now: int): (r: GameState)
    requires SessionInv(st)
    ensures SessionInv(r)
    ensures r.notes == st.notes && r.difficulty == st.difficulty
  {
    if TimerShouldRun(st) then st.(elapsedMs := now - StartOr(st, now)) else st
  }

  /** A tick only refreshes the elapsed time, to the time since the start, and only while the timer runs. */
  lemma TickOutcome(st: GameState, now: int)
    requires SessionInv(st)
    ensures var r := AfterTick(st, now);
      r == st.(elapsedMs := r.elapsedMs) &&
      (TimerShouldRun(st) ==> r.elapsedMs == now - st.startTime.value) &&
      (!TimerShouldRun(st) ==> r == st)
  {
  }

  /** A tick while paused (or in any state without a timer) changes nothing: paused time is frozen. */
  lemma PausedTimeIsFrozen(st: GameState, t1: int, t2: int)
    requires SessionInv(st) && st.status == Playing
    ensures AfterTick(AfterPause(st, t1), t2) == AfterPause(st, t1)
  {
  }

  /**
   * Pause then resume keeps the clock continuous: a tick `d` milliseconds
   * after resuming shows the frozen elapsed time plus `d` (plus nothing if the
   * backdated start is the falsy 0, when no interval runs).
   */
  lemma PauseResumeContinuity(st: GameState, t1: int, t2: int, d: int)
    requires SessionInv(st) && st.status == Playing
    ensures var p := AfterPause(st, t1);
      var r := AfterResume(p, t2);
      r.status == Playing &&
      AfterTick(r, t2 + d).elapsedMs == if t2 - p.elapsedMs != 0 then p.elapsedMs + d else p.elapsedMs
  {
  }

  // ---------------------------------------------------------------------
  // Runs of key presses

  /**
   * Applies `presses` (pressed key, time) in order; also returns how many of
   * them arrived while the session was playing.
   */
  function RunPresses(st: GameState, presses: seq<(NoteName, int)>): (r: (GameState, nat))
    requires SessionInv(st)
    ensures SessionInv(r.0)
    decreases |presses|
  {
    if presses == [] then (st, 0)
    else
      var next := AfterPress(st, presses[0].0, presses[0].1);
      var rest := RunPresses(next, presses[1..]);
      (rest.0, rest.1 + if st.status == Playing then 1 else 0)
  }

  /** Every press handled while playing adds one to exactly one of the two counters. */
  lemma {:induction false} RunPressesCounts(st: GameState, presses: seq<(NoteName, int)>)
    requires SessionInv(st)
    ensures var (fin, handled) := RunPresses(st, presses);
      fin.correctCount + fin.incorrectCount == st.correctCount + st.incorrectCount + handled &&
      fin.correctCount >= st.correctCount && fin.incorrectCount >= st.incorrectCount
    decreases |presses|
  {
    if presses != [] {
      RunPressesCounts(AfterPress(st, presses[0].0, presses[0].1), presses[1..]);
    }
  }

  /** Presses on a session that is not playing change nothing. */
  lemma {:induction false} RunPressesWhenNotPlaying(st: GameState, presses: seq<(NoteName, int)>)
    requires SessionInv(st) && st.status != Playing
    ensures RunPresses(st, presses) == (st, 0)
    decreases |presses|
  {
    if presses != [] {
      RunPressesWhenNotPlaying(st, presses[1..]);
    }
  }

  /** The finished record a session reaches when its last correct press comes at time `t`. */
  function FinishedAt(st: GameState, t: int): GameState
    requires 0 < |st.notes|
  {
    st.(status := Finished,
        currentNoteIndex := |st.notes| - 1,
        correctCount := |st.notes|,
        elapsedMs := t - StartOr(st, t),
        accuracy := FinalAccuracy(|st.notes|, st.incorrectCount))
  }

  /** Pressing the last note finishes the session with the accuracy over every press. */
  lemma LastCorrectPressFinishes(st: GameState, pressed: NoteName, now: int)
    requires SessionInv(st) && st.status == Playing
    requires st.currentNoteIndex == |st.notes| - 1 && pressed == st.notes[st.currentNoteIndex].name
    ensures AfterPress(st, pressed, now) == FinishedAt(st, now)
  {
    assert IsCorrectPress(st, pressed);
  }

  /** Pressing a note before the last one advances to the next note and counts it correct. */
  lemma EarlyCorrectPressAdvances(st: GameState, pressed: NoteName, now: int, t: int)
    requires SessionInv(st) && st.status == Playing
    requires st.currentNoteIndex < |st.notes| - 1 && pressed == st.notes[st.currentNoteIndex].name
    ensures AfterPress(st, pressed, now) ==
      st.(currentNoteIndex := st.currentNoteIndex + 1, correctCount := st.correctCount + 1)
    ensures FinishedAt(AfterPress(st, pressed, now), t) == FinishedAt(st, t)
  {
    assert IsCorrectPress(st, pressed);
  }

  /**
   * Pressing the remaining notes in order finishes the session: every note is
   * counted correct, the wrong presses made so far stay in the denominator,
   * and the elapsed time is taken at the last press.
   */
  lemma {:induction false} RunCorrectPressesFinishes(st: GameState, presses: seq<(NoteName, int)>)
    requires SessionInv(st) && st.status == Playing
    requires |presses| == |st.notes| - st.currentNoteIndex
    requires forall j :: 0 <= j < |presses| ==> presses[j].0 == st.notes[st.currentNoteIndex + j].name
    ensures RunPresses(st, presses) == (FinishedAt(st, presses[|presses| - 1].1), |presses|)
    decreases |presses|
  {
    var next := AfterPress(st, presses[0].0, presses[0].1);
    var rest := presses[1..];
    if |presses| == 1 {
      LastCorrectPressFinishes(st, presses[0].0, presses[0].1);
      RunPressesWhenNotPlaying(next, rest);
    } else {
      EarlyCorrectPressAdvances(st, presses[0].0, presses[0].1, presses[|presses| - 1].1);
      forall j | 0 <= j < |rest|
        ensures rest[j].0 == next.notes[next.currentNoteIndex + j].name
      {
        assert rest[j] == presses[j + 1];
      }
      RunCorrectPressesFinishes(next, rest);
      assert rest[|rest| - 1] == presses[|presses| - 1];
    }
  }

  /** The three white notes of the accuracy example. */
  const EXAMPLE_NOTES: seq<Note> :=
    [Note(C, "C", false, "c1.wav"), Note(D, "D", false, "d1.wav"), Note(E, "E", false, "e1.wav")]

  /** C, D, E spelled plainly form a sequence note generation can produce. */
  lemma ExampleNotesGenerated()
    ensures WellGenerated(EXAMPLE_NOTES)
  {
    assert NameOf(C) == "C" && NameOf(D) == "D" && NameOf(E) == "E";
    assert IndexOf("C", '2') == 1 && IndexOf("D", '2') == 1 && IndexOf("E", '2') == 1;
  }

  /** Three notes, one wrong press first, then the three right ones: accuracy 3/4. */
  lemma AccuracyExample()
    ensures WellGenerated(EXAMPLE_NOTES)
    ensures var st := AfterPress(Started(3, EXAMPLE_NOTES, 1000), F, 1100);
      var (fin, handled) := RunPresses(st, [(C, 1200), (D, 1300), (E, 1400)]);
      st.incorrectCount == 1 && st.currentNoteIndex == 0 &&
      fin.status == Finished && fin.accuracy == 0.75 && fin.elapsedMs == 400 && handled == 3
  {
    ExampleNotesGenerated();
    var st0 := Started(3, EXAMPLE_NOTES, 1000);
    assert !IsCorrectPress(st0, F);
    var st := AfterPress(st0, F, 1100);
    assert st == st0.(incorrectCount := 1);
    var presses := [(C, 1200), (D, 1300), (E, 1400)];
    RunCorrectPressesFinishes(st, presses);
    assert FinishedAt(st, 1400).accuracy == 3.0 / 4.0;
  }

  // ---------------------------------------------------------------------
  // The engine object

  /** A scheduled 300 ms feedback clear: the key it clears and whether the press was correct. */
  datatype PendingClear = PendingClear(note: NoteName, wasCorrect: bool)

  /** Every key without feedback: the map the hook builds from KEY_ORDER. */
  function NoFeedbackMap(): (m: map<NoteName, KeyFeedback>)
    ensures forall k: NoteName :: k in m && m[k] == NoFeedback
  {
    KeyOrderWellFormed();
    map k | k in KEY_ORDER :: NoFeedback
  }

  /** Every key showing feedback, and the highlighted wrong key, has a clear still scheduled. */
  ghost predicate FeedbackCleared(feedback: map<NoteName, KeyFeedback>, incorrect: Option<NoteName>,
                                  pending: map<nat, PendingClear>)
  {
    (forall k :: k in feedback && feedback[k] != NoFeedback ==>
      exists id :: id in pending && pending[id].note == k) &&
    (incorrect.Some? ==>
      exists id :: id in pending && pending[id] == PendingClear(incorrect.value, false))
  }

  /** A press flags its key and schedules its clear under a fresh id: every flag stays covered. */
  lemma PressKeepsFeedbackCleared(feedback: map<NoteName, KeyFeedback>, incorrect: Option<NoteName>,
                                  pending: map<nat, PendingClear>, id: nat, pressed: NoteName, isCorrect: bool)
    requires FeedbackCleared(feedback, incorrect, pending) && id !in pending
    ensures FeedbackCleared(feedback[pressed := if isCorrect then CorrectFeedback else IncorrectFeedback],
                            if isCorrect then incorrect else Some(pressed),
                            pending[id := PendingClear(pressed, isCorrect)])
  {
    var pending' := pending[id := PendingClear(pressed, isCorrect)];
    var feedback' := feedback[pressed := if isCorrect then CorrectFeedback else IncorrectFeedback];
    assert pending'[id].note == pressed;
    forall k | k in feedback' && feedback'[k] != NoFeedback
      ensures exists i :: i in pending' && pending'[i].note == k
    {
      if k != pressed {
        var i :| i in pending && pending[i].note == k;
        assert i in pending' && pending'[i] == pending[i];
      }
    }
    if !isCorrect {
      assert pending'[id] == PendingClear(pressed, false);
    } else if incorrect.Some? {
      var i :| i in pending && pending[i] == PendingClear(incorrect.value, false);
      assert i in pending' && pending'[i] == pending[i];
    }
  }

  /**
   * A clear firing resets its key and, for a wrong press, the highlighted
   * wrong key; the flags that remain are covered by the clears that remain.
   */
  lemma FireKeepsFeedbackCleared(feedback: map<NoteName, KeyFeedback>, incorrect: Option<NoteName>,
                                 pending: map<nat, PendingClear>, id: nat)
    requires FeedbackCleared(feedback, incorrect, pending) && id in pending
    ensures FeedbackCleared(feedback[pending[id].note := NoFeedback],
                            if pending[id].wasCorrect then incorrect else None,
                            pending - {id})
  {
    var clear := pending[id];
    var pending' := pending - {id};
    var feedback' := feedback[clear.note := NoFeedback];
    forall k | k in feedback' && feedback'[k] != NoFeedback
      ensures exists i :: i in pending' && pending'[i].note == k
    {
      var i :| i in pending && pending[i].note == k;
      assert i != id;
      assert i in pending' && pending'[i] == pending[i];
    }
    if clear.wasCorrect && incorrect.Some? {
      var i :| i in pending && pending[i] == PendingClear(incorrect.value, false);
      assert i != id;
      assert i in pending' && pending'[i] == pending[i];
    }
  }

  /**
   * The hook's invariant: a reachable session record;
   * feedback for every key; scheduled clears under ids already handed out;
   * while mounted, an interval exactly when the timer should run and a clear
   * pending for every visible flag; once unmounted, nothing scheduled.
   */
  ghost predicate EngineInv(st: GameState, feedback: map<NoteName, KeyFeedback>, incorrect: Option<NoteName>,
                            timerActive: bool, pending: map<nat, PendingClear>, nextId: nat, mounted: bool)
  {
    SessionInv(st) &&
    (forall k: NoteName :: k in feedback) &&
    (forall id :: id in pending ==> id < nextId) &&
    (mounted ==> timerActive == TimerShouldRun(st)) &&
    (!mounted ==> !timerActive && pending == map[]) &&
    (mounted ==> FeedbackCleared(feedback, incorrect, pending))
  }

  /** A press while playing, with its clear scheduled under the next id, keeps the hook's invariant. */
  lemma PressKeepsEngineInv(st: GameState, feedback: map<NoteName, KeyFeedback>, incorrect: Option<NoteName>,
                            timerActive: bool, pending: map<nat, PendingClear>, nextId: nat,
                            pressed: NoteName, now: int)
    requires EngineInv(st, feedback, incorrect, timerActive, pending, nextId, true) && st.status == Playing
    ensures var isCorrect := IsCorrectPress(st, pressed);
      var next := AfterPress(st, pressed, now);
      EngineInv(next,
                feedback[pressed := if isCorrect then CorrectFeedback else IncorrectFeedback],
                if isCorrect then incorrect else Some(pressed),
                TimerShouldRun(next),
                pending[nextId := PendingClear(pressed, isCorrect)],
                nextId + 1, true)
  {
    var isCorrect := IsCorrectPress(st, pressed);
    PressKeepsFeedbackCleared(feedback, incorrect, pending, nextId, pressed, isCorrect);
  }

  /** The `usePianoGame` hook: its state, refs and scheduled callbacks. */
  class PianoGame {
    var state: GameState
    var keyFeedback: map<NoteName, KeyFeedback>
    var incorrectNote: Option<NoteName>
    /** `timerRef.current !== null`: the 100 ms interval exists. */
    var timerActive: bool
    /** `feedbackTimeoutsRef`: the feedback clears still scheduled, by timeout id. */
    var pendingTimeouts: map<nat, PendingClear>
    /** The id the next `setTimeout` returns. */
    var nextTimeoutId: nat
    /** `feedbackKeyRef`. */
    var feedbackKey: nat
    /** False once the owning component has unmounted. */
    var mounted: bool

    ghost predicate Valid()
      reads this
    {
      EngineInv(state, keyFeedback, incorrectNote, timerActive, pendingTimeouts, nextTimeoutId, mounted)
    }

    /** Mounting the hook. */
    constructor ()
      ensures Valid() && mounted
      ensures state == INITIAL_STATE
      ensures keyFeedback == NoFeedbackMap() && incorrectNote == None
      ensures !timerActive && pendingTimeouts == map[]
    {
      state := INITIAL_STATE;
      keyFeedback := NoFeedbackMap();
      incorrectNote := None;
      timerActive := false;
      pendingTimeouts := map[];
      nextTimeoutId := 0;
      feedbackKey := 0;
      mounted := true;
    }

    /** `setDifficulty(d)`. */
    method SetDifficulty(d: Difficulty)
      requires Valid() && mounted
      modifies this
      ensures Valid() && mounted
      ensures state == old(state).(difficulty := d)
      ensures keyFeedback == old(keyFeedback) && incorrectNote == old(incorrectNote)
      ensures timerActive == old(timerActive) && pendingTimeouts == old(pendingTimeouts)
      ensures nextTimeoutId == old(nextTimeoutId) && feedbackKey == old(feedbackKey)
    {
      state := state.(difficulty := d);
    }

    /**
     * `startGame(difficulty)` at time `now`: a fresh session of `diff` notes,
     * `diff` being the argument or else the current difficulty. When the
     * random stream runs out nothing changes and `started` is false; a
     * stream of two values per note without near repeats always starts.
     */
    method StartGame(difficulty: Option<Difficulty>, now: int, randoms: seq<real>) returns (started: bool)
      requires Valid() && mounted
      requires RandomStream(randoms)
      modifies this
      ensures Valid() && mounted
      ensures var diff := difficulty.GetOr(old(state).difficulty);
        started == Generate(diff, randoms, 0, None).1 &&
        (started ==> state.notes == NotesOf(Generate(diff, randoms, 0, None).0))
      ensures var diff := difficulty.GetOr(old(state).difficulty);
        2 * diff <= |randoms| && NoNearRepeats(randoms) ==> started
      ensures var diff := difficulty.GetOr(old(state).difficulty);
        started ==>
          state.status == Playing && state.difficulty == diff &&
          |state.notes| == diff && WellGenerated(state.notes) &&
          state.currentNoteIndex == 0 && state.correctCount == 0 && state.incorrectCount == 0 &&
          state.startTime == Some(now) && state.elapsedMs == 0 && state.accuracy == 0.0
      ensures started ==> timerActive == (now != 0)
      ensures !started ==> state == old(state) && timerActive == old(timerActive)
      ensures keyFeedback == old(keyFeedback) && incorrectNote == old(incorrectNote)
      ensures pendingTimeouts == old(pendingTimeouts) && nextTimeoutId == old(nextTimeoutId)
      ensures feedbackKey == old(feedbackKey)
    {
      var diff := difficulty.GetOr(state.difficulty);
      if 2 * diff <= |randoms| && NoNearRepeats(randoms) {
        GenerateSucceeds(diff, randoms, 0, None, 0);
      }
      var notes, ok, _ := GenerateRandomNotes(diff, randoms);
      started := ok;
      if ok {
        state := Started(diff, notes, now);
        timerActive := TimerShouldRun(state);
      }
    }

    /**
     * `handleKeyPress(pressed)` at time `now`. Outside play it returns false
     * and changes nothing; otherwise it flags the key, schedules its clear,
     * and advances, finishes or counts a miss.
     */
    method HandleKeyPress(pressed: NoteName, now: int) returns (isCorrect: bool)
      requires Valid() && mounted
      modifies this
      ensures Valid() && mounted
      ensures old(state).status != Playing ==>
        !isCorrect && state == old(state) && keyFeedback == old(keyFeedback) &&
        incorrectNote == old(incorrectNote) && timerActive == old(timerActive) &&
        pendingTimeouts == old(pendingTimeouts) && nextTimeoutId == old(nextTimeoutId) &&
        feedbackKey == old(feedbackKey)
      ensures old(state).status == Playing ==>
        isCorrect == IsCorrectPress(old(state), pressed) &&
        state == AfterPress(old(state), pressed, now) &&
        keyFeedback == old(keyFeedback)[pressed := if isCorrect then CorrectFeedback else IncorrectFeedback] &&
        incorrectNote == (if isCorrect then old(incorrectNote) else Some(pressed)) &&
        pendingTimeouts == old(pendingTimeouts)[old(nextTimeoutId) := PendingClear(pressed, isCorrect)] &&
        nextTimeoutId == old(nextTimeoutId) + 1 && feedbackKey == old(feedbackKey) + 1
    {
      if state.status != Playing {
        return false;
      }
      isCorrect := IsCorrectPress(state, pressed);
      PressKeepsEngineInv(state, keyFeedback, incorrectNote, timerActive, pendingTimeouts, nextTimeoutId, pressed, now);
      var next := AfterPress(state, pressed, now);
      // the timer effect re-runs on the status change and clears the interval on finishing
      state, keyFeedback, incorrectNote, pendingTimeouts, nextTimeoutId, feedbackKey, timerActive :=
        next,
        keyFeedback[pressed := if isCorrect then CorrectFeedback else IncorrectFeedback],
        if isCorrect then incorrectNote else Some(pressed),
        pendingTimeouts[nextTimeoutId := PendingClear(pressed, isCorrect)],
        nextTimeoutId + 1, feedbackKey + 1, TimerShouldRun(next);
    }

    /** The 300 ms feedback clear with id `id` fires; a cancelled or unknown id does nothing. */
    method FeedbackTimeout(id: nat)
      requires Valid()
      modifies this
      ensures Valid() && mounted == old(mounted)
      ensures id !in old(pendingTimeouts) ==>
        keyFeedback == old(keyFeedback) && incorrectNote == old(incorrectNote) &&
        pendingTimeouts == old(pendingTimeouts)
      ensures id in old(pendingTimeouts) ==>
        var clear := old(pendingTimeouts)[id];
        pendingTimeouts == old(pendingTimeouts) - {id} &&
        keyFeedback == old(keyFeedback)[clear.note := NoFeedback] &&
        incorrectNote == (if clear.wasCorrect then old(incorrectNote) else None)
      ensures state == old(state) && timerActive == old(timerActive)
      ensures nextTimeoutId == old(nextTimeoutId) && feedbackKey == old(feedbackKey)
    {
      if id !in pendingTimeouts {
        return;
      }
      var clear := pendingTimeouts[id];
      if mounted {
        FireKeepsFeedbackCleared(keyFeedback, incorrectNote, pendingTimeouts, id);
      }
      pendingTimeouts := pendingTimeouts - {id};
      keyFeedback := keyFeedback[clear.note := NoFeedback];
      if !clear.wasCorrect {
        incorrectNote := None;
      }
    }

    /** The 100 ms interval fires at `now` (only an existing interval can fire). */
    method Tick(now: int)
      requires Valid()
      modifies this
      ensures Valid() && mounted == old(mounted)
      ensures state == if old(timerActive) then AfterTick(old(state), now) else old(state)
      ensures mounted ==> state == AfterTick(old(state), now)
      ensures keyFeedback == old(keyFeedback) && incorrectNote == old(incorrectNote)
      ensures timerActive == old(timerActive) && pendingTimeouts == old(pendingTimeouts)
      ensures nextTimeoutId == old(nextTimeoutId) && feedbackKey == old(feedbackKey)
    {
      if timerActive {
        state := state.(elapsedMs := now - StartOr(state, now));
      }
    }

    /** `pauseGame()` at time `now`. */
    method PauseGame(now: int)
      requires Valid() && mounted
      modifies this
      ensures Valid() && mounted
      ensures state == AfterPause(old(state), now)
      ensures old(state).status == Playing ==> !timerActive
      ensures old(state).status != Playing ==> timerActive == old(timerActive)
      ensures keyFeedback == old(keyFeedback) && incorrectNote == old(incorrectNote)
      ensures pendingTimeouts == old(pendingTimeouts)
      ensures nextTimeoutId == old(nextTimeoutId) && feedbackKey == old(feedbackKey)
    {
      if state.status != Playing {
        return;
      }
      timerActive := false;
      state := state.(status := Paused, elapsedMs := now - StartOr(state, now));
    }

    /** `resumeGame()` at time `now`. */
    method ResumeGame(now: int)
      requires Valid() && mounted
      modifies this
      ensures Valid() && mounted
      ensures state == AfterResume(old(state), now)
      ensures old(state).status == Paused ==> timerActive == (now - old(state).elapsedMs != 0)
      ensures old(state).status != Paused ==> timerActive == old(timerActive)
      ensures keyFeedback == old(keyFeedback) && incorrectNote == old(incorrectNote)
      ensures pendingTimeouts == old(pendingTimeouts)
      ensures nextTimeoutId == old(nextTimeoutId) && feedbackKey == old(feedbackKey)
    {
      if state.status != Paused {
        return;
      }
      state := state.(status := Playing, startTime := Some(now - state.elapsedMs));
      timerActive := TimerShouldRun(state);
    }

    /** `resetGame()`: cancels the interval and every scheduled clear, and restores the initial record. */
    method ResetGame()
      requires Valid() && mounted
      modifies this
      ensures Valid() && mounted
      ensures state == INITIAL_STATE
      ensures keyFeedback == NoFeedbackMap() && incorrectNote == None
      ensures !timerActive && pendingTimeouts == map[]
      ensures nextTimeoutId == old(nextTimeoutId) && feedbackKey == old(feedbackKey)
    {
      timerActive := false;
      pendingTimeouts := map[];
      state := INITIAL_STATE;
      keyFeedback := NoFeedbackMap();
      incorrectNote := None;
    }

    /** Unmounting: the interval and every scheduled clear are cancelled, so no callback fires later. */
    method Teardown()
      requires Valid()
      modifies this
      ensures Valid() && !mounted
      ensures !timerActive && pendingTimeouts == map[]
      ensures state == old(state) && keyFeedback == old(keyFeedback) && incorrectNote == old(incorrectNote)
      ensures nextTimeoutId == old(nextTimeoutId) && feedbackKey == old(feedbackKey)
    {
      timerActive := false;
      pendingTimeouts := map[];
      mounted := false;
    }
  }
}
