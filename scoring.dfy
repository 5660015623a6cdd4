/**
 * Score arithmetic: notes per minute, a clamped linear speed score, and a
 * progression score weighting accuracy against speed. Numbers are modelled
 * exactly as reals.
 */
module Scoring {
  import opened PianoTypes
  import opened JsString

  /** SCORE_WEIGHTS. */
  const ACCURACY_WEIGHT: real := 0.6
  const SPEED_WEIGHT: real := 0.4

  /** SPEED_CONFIG. */
  const BASELINE_NPM: real := 30.0
  const EXCELLENT_NPM: real := 60.0
  const MIN_SCORE: real := 10.0
  const MAX_SCORE: real := 100.0

  /** `Math.round`: the nearest integer, a half rounded towards +infinity. */
  function Round(x: real): (r: int)
    ensures r as real <= x + 0.5 < r as real + 1.0
  {
    (x + 0.5).Floor
  }

  lemma RoundMonotone(x: real, y: real)
    requires x <= y
    ensures Round(x) <= Round(y)
  {
  }

  /** `Math.max(lo, Math.min(hi, x))`. */
  function Clamp(lo: real, hi: real, x: real): (r: real)
    requires lo <= hi
    ensures lo <= r <= hi
    ensures lo <= x <= hi ==> r == x
    ensures x < lo ==> r == lo
    ensures x > hi ==> r == hi
  {
    if x < lo then lo else if x > hi then hi else x
  }

  /** Notes per minute; 0 when no positive time has elapsed. */
  function NotesPerMinute(noteCount: real, elapsedMs: real): (npm: real)
    ensures elapsedMs <= 0.0 ==> npm == 0.0
    ensures elapsedMs > 0.0 ==> npm * elapsedMs == noteCount * 60000.0
  {
    if elapsedMs <= 0.0 then 0.0
    else
      var minutes := elapsedMs / 60000.0;
      assert minutes * 60000.0 == elapsedMs;
      noteCount / minutes
  }

  /** The speed score at `npm`: 10 for no speed, 50 at 30 npm, 100 from 60 npm, linear between. */
  function SpeedScore(npm: real): (r: int)
    ensures 10 <= r <= 100
    ensures npm <= 0.0 ==> r == 10
  {
    if npm <= 0.0 then MIN_SCORE.Floor
    else
      var range := EXCELLENT_NPM - BASELINE_NPM;
      var aboveBaseline := npm - BASELINE_NPM;
      var normalizedSpeed := 50.0 + (aboveBaseline / range) * 50.0;
      Round(Clamp(MIN_SCORE, MAX_SCORE, normalizedSpeed))
  }

  /** The values the source's tests fix. */
  lemma SpeedScoreExamples()
    ensures SpeedScore(30.0) == 50
    ensures SpeedScore(45.0) == 75
    ensures SpeedScore(60.0) == 100
    ensures SpeedScore(120.0) == 100
    ensures SpeedScore(0.0) == 10
    ensures SpeedScore(-10.0) == 10
    ensures 10 <= SpeedScore(15.0) < 50
  {
  }

  /** A faster player never gets a lower speed score. */
  lemma SpeedScoreMonotone(a: real, b: real)
    requires a <= b
    ensures SpeedScore(a) <= SpeedScore(b)
  {
    if 0.0 < a {
      var na := 50.0 + ((a - BASELINE_NPM) / (EXCELLENT_NPM - BASELINE_NPM)) * 50.0;
      var nb := 50.0 + ((b - BASELINE_NPM) / (EXCELLENT_NPM - BASELINE_NPM)) * 50.0;
      assert na <= nb;
      RoundMonotone(Clamp(MIN_SCORE, MAX_SCORE, na), Clamp(MIN_SCORE, MAX_SCORE, nb));
    } else if 0.0 < b {
      RoundMonotone(MIN_SCORE, Clamp(MIN_SCORE, MAX_SCORE,
        50.0 + ((b - BASELINE_NPM) / (EXCELLENT_NPM - BASELINE_NPM)) * 50.0));
    }
  }

  /** The weights of accuracy and speed sum to one. */
  lemma WeightsSumToOne()
    ensures ACCURACY_WEIGHT + SPEED_WEIGHT == 1.0
  {
  }

  /** `round(accuracy * 0.6 + speedScore * 0.4)` for the speed of `noteCount` notes in `elapsedMs`. */
  function ProgressionScore(accuracy: real, noteCount: real, elapsedMs: real): (r: int)
    ensures 0.0 <= accuracy <= 100.0 ==> 4 <= r <= 100
  {
    var notesPerMinute := NotesPerMinute(noteCount, elapsedMs);
    var speedScore := SpeedScore(notesPerMinute);
    var weightedScore := accuracy * ACCURACY_WEIGHT + speedScore as real * SPEED_WEIGHT;
    assert 0.0 <= accuracy <= 100.0 ==> 4.0 <= weightedScore <= 100.0;
    Round(weightedScore)
  }

  /** The values the source's tests fix: a perfect game scores 100, an empty one 4. */
  lemma ProgressionScoreExamples()
    ensures ProgressionScore(100.0, 60.0, 60000.0) == 100
    ensures ProgressionScore(0.0, 0.0, 0.0) == 4
    ensures ProgressionScore(100.0, 10.0, 60000.0) > ProgressionScore(30.0, 60.0, 60000.0)
  {
    assert NotesPerMinute(60.0, 60000.0) == 60.0;
    assert NotesPerMinute(10.0, 60000.0) == 10.0;
  }

  /** The progression score of a stored game; its difficulty is the note count. */
  function ScoreFromGame(score: GameScore): int {
    ProgressionScore(score.accuracy, score.difficulty as real, score.elapsedMs as real)
  }

  lemma CancelPositive(x: real, y: real, k: real)
    requires k > 0.0 && x * k == y * k
    ensures x == y
  {
    assert (x - y) * k == 0.0;
  }

  /** Equal ratios of notes to time give equal rates. */
  lemma NotesPerMinuteRatio(n1: real, e1: real, n2: real, e2: real)
    requires e1 > 0.0 && e2 > 0.0 && n1 * e2 == n2 * e1
    ensures NotesPerMinute(n1, e1) == NotesPerMinute(n2, e2)
  {
    var p1, p2 := NotesPerMinute(n1, e1), NotesPerMinute(n2, e2);
    calc {
      p1 * (e1 * e2);
      (p1 * e1) * e2;
      (n1 * 60000.0) * e2;
      (n1 * e2) * 60000.0;
      (n2 * e1) * 60000.0;
      (n2 * 60000.0) * e1;
      (p2 * e2) * e1;
      p2 * (e1 * e2);
    }
    CancelPositive(p1, p2, e1 * e2);
  }

  /**
   * Two games with the same accuracy and the same ratio of notes to time
   * have the same score, however long each was.
   */
  lemma ScoreFromGameScaleInvariant(s1: GameScore, s2: GameScore)
    requires s1.accuracy == s2.accuracy
    requires s1.elapsedMs > 0 && s2.elapsedMs > 0
    requires s1.difficulty * s2.elapsedMs == s2.difficulty * s1.elapsedMs
    ensures ScoreFromGame(s1) == ScoreFromGame(s2)
  {
    NotesPerMinuteRatio(s1.difficulty as real, s1.elapsedMs as real,
                        s2.difficulty as real, s2.elapsedMs as real);
  }

  /** The source's example: 3 notes in 6 s and 25 notes in 50 s both score 80. */
  lemma ScoreFromGameExample()
    ensures ScoreFromGame(GameScore("1", 3, 100.0, 6000, 0)) == 80
    ensures ScoreFromGame(GameScore("2", 25, 100.0, 50000, 0)) == 80
  {
    assert NotesPerMinute(3.0, 6000.0) == 30.0;
    assert NotesPerMinute(25.0, 50000.0) == 30.0;
  }

  /** Milliseconds per note; 0 when there are no notes. */
  function AverageTimePerNote(noteCount: real, elapsedMs: real): (avg: real)
    ensures noteCount <= 0.0 ==> avg == 0.0
    ensures noteCount > 0.0 ==> avg * noteCount == elapsedMs
  {
    if noteCount <= 0.0 then 0.0 else elapsedMs / noteCount
  }

  /** `${Math.round(npm)} npm`. */
  function FormatNotesPerMinute(npm: real): string {
    IntToString(Round(npm)) + " npm"
  }

  /** The rounded rate, read back from the digits in front of " npm", is Round(npm). */
  lemma FormatNotesPerMinuteReadsBack(npm: real)
    requires npm >= -0.5
    ensures var s := FormatNotesPerMinute(npm);
      |s| >= 5 && s[|s| - 4..] == " npm" &&
      (forall k :: 0 <= k < |s| - 4 ==> IsDigit(s[k])) &&
      DecimalValue(s[..|s| - 4]) == Round(npm)
  {
    var digits := NatToDecimal(Round(npm));
    var s := FormatNotesPerMinute(npm);
    assert s == digits + " npm";
    assert s[..|s| - 4] == digits;
    DecimalRoundTrip(Round(npm));
  }

  lemma FormatNotesPerMinuteExamples()
    ensures FormatNotesPerMinute(30.0) == "30 npm"
    ensures FormatNotesPerMinute(30.7) == "31 npm"
    ensures FormatNotesPerMinute(30.2) == "30 npm"
  {
  }
}
