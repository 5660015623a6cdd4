/**
 * The score history: a list of finished sessions, newest first, and the
 * statistics the progress screen shows. Persisting the list is not
 * modelled; the clock is passed in.
 */
module Progress {
  import opened Wrappers
  import opened PianoTypes
  import opened JsString
  import Scoring

  /** The object `getStats()` returns; keys absent from `gamesByDifficulty` were never played. */
  datatype ProgressStats = ProgressStats(
    totalGames: nat,
    averageAccuracy: int,
    bestAccuracy: real,
    totalTimePlayed: int,
    gamesByDifficulty: map<Difficulty, nat>)

  // ---------------------------------------------------------------------
  // The folds of getStats. Sums and counts do not depend on the order in
  // which `reduce` visits the scores, so they are written from the head.

  /** `scores.reduce((sum, s) => sum + s.accuracy, 0)`. */
  function AccuracySum(scores: seq<GameScore>): real {
    if scores == [] then 0.0 else scores[0].accuracy + AccuracySum(scores[1..])
  }

  /** `scores.reduce((sum, s) => sum + s.elapsedMs, 0)`. */
  function TimeSum(scores: seq<GameScore>): int {
    if scores == [] then 0 else scores[0].elapsedMs + TimeSum(scores[1..])
  }

  /** `Math.max(...scores.map((s) => s.accuracy))` on a non-empty list: the best accuracy. */
  function MaxAccuracy(scores: seq<GameScore>): (best: real)
    requires scores != []
    ensures forall i :: 0 <= i < |scores| ==> scores[i].accuracy <= best
    ensures exists i :: 0 <= i < |scores| && scores[i].accuracy == best
  {
    if |scores| == 1 then scores[0].accuracy
    else
      var rest := MaxAccuracy(scores[1..]);
      assert forall i :: 1 <= i < |scores| ==> scores[i] == scores[1..][i - 1];
      if scores[0].accuracy >= rest then scores[0].accuracy else rest
  }

  /** `acc[d] || 0`: how many games of difficulty `d` a tally holds. */
  function Tally(counts: map<Difficulty, nat>, d: Difficulty): nat {
    if d in counts then counts[d] else 0
  }

  /** The `gamesByDifficulty` reduce: one more for each score's difficulty. */
  function CountByDifficulty(scores: seq<GameScore>): map<Difficulty, nat> {
    if scores == [] then map[]
    else
      var counts := CountByDifficulty(scores[1..]);
      var d := scores[0].difficulty;
      counts[d := Tally(counts, d) + 1]
  }

  /** `getStats()` on the list `scores`. */
  function ComputeStats(scores: seq<GameScore>): ProgressStats {
    if |scores| == 0 then ProgressStats(0, 0, 0.0, 0, map[])
    else
      ProgressStats(
        |scores|,
        Scoring.Round(AccuracySum(scores) / (|scores| as real)),
        MaxAccuracy(scores),
        TimeSum(scores),
        CountByDifficulty(scores))
  }

  /** The difficulties of the scores, in order. */
  function DifficultiesOf(scores: seq<GameScore>): (ds: seq<Difficulty>)
    ensures |ds| == |scores|
    ensures forall i :: 0 <= i < |scores| ==> ds[i] == scores[i].difficulty
  {
    seq(|scores|, i requires 0 <= i < |scores| => scores[i].difficulty)
  }

  // ---------------------------------------------------------------------
  // Properties of the statistics

  /** With no scores every statistic is zero and no difficulty has a count. */
  lemma EmptyStats()
    ensures ComputeStats([]) == ProgressStats(0, 0, 0.0, 0, map[])
  {
  }

  /**
   * The per-difficulty counts are the multiplicities of the difficulties
   * played: a difficulty is a key exactly when some score has it, with the
   * number of scores that have it as its count.
   */
  lemma {:induction false} CountsAreOccurrences(scores: seq<GameScore>, d: Difficulty)
    ensures d in CountByDifficulty(scores) <==> d in DifficultiesOf(scores)
    ensures Tally(CountByDifficulty(scores), d) == multiset(DifficultiesOf(scores))[d]
  {
    if scores != [] {
      var rest := scores[1..];
      CountsAreOccurrences(rest, d);
      assert DifficultiesOf(scores) == [scores[0].difficulty] + DifficultiesOf(rest);
    }
  }

  /** The four per-difficulty counts add up to the number of games. */
  lemma {:induction false} CountsSumToTotal(scores: seq<GameScore>)
    ensures var counts := CountByDifficulty(scores);
      Tally(counts, 3) + Tally(counts, 10) + Tally(counts, 25) + Tally(counts, 100) == |scores|
  {
    if scores != [] {
      CountsSumToTotal(scores[1..]);
    }
  }

  /** The sum of accuracies is at most the count times any upper bound. */
  lemma {:induction false} AccuracySumAtMost(scores: seq<GameScore>, hi: real)
    requires forall i :: 0 <= i < |scores| ==> scores[i].accuracy <= hi
    ensures AccuracySum(scores) <= (|scores| as real) * hi
  {
    if scores != [] {
      var rest := scores[1..];
      assert forall i :: 0 <= i < |rest| ==> rest[i] == scores[i + 1];
      AccuracySumAtMost(rest, hi);
    }
  }

  /** The sum of accuracies is at least the count times any lower bound. */
  lemma {:induction false} AccuracySumAtLeast(scores: seq<GameScore>, lo: real)
    requires forall i :: 0 <= i < |scores| ==> lo <= scores[i].accuracy
    ensures (|scores| as real) * lo <= AccuracySum(scores)
  {
    if scores != [] {
      var rest := scores[1..];
      assert forall i :: 0 <= i < |rest| ==> rest[i] == scores[i + 1];
      AccuracySumAtLeast(rest, lo);
    }
  }

  /** A total of at most `n` times `hi`, shared over `n`, is at most `hi`. */
  lemma MeanAtMost(sum: real, n: real, hi: real)
    requires n > 0.0 && sum <= n * hi
    ensures sum / n <= hi
  {
    var q := sum / n;
    assert q * n == sum;
    assert n * (hi - q) >= 0.0;
  }

  /** A total of at least `n` times `lo`, shared over `n`, is at least `lo`. */
  lemma MeanAtLeast(sum: real, n: real, lo: real)
    requires n > 0.0 && n * lo <= sum
    ensures lo <= sum / n
  {
    var q := sum / n;
    assert q * n == sum;
    assert n * (q - lo) >= 0.0;
  }

  /** A mean of values within bounds rounds to within the rounded bounds. */
  lemma RoundedMeanBetween(sum: real, n: real, lo: real, hi: real)
    requires n > 0.0 && n * lo <= sum <= n * hi
    ensures Scoring.Round(lo) <= Scoring.Round(sum / n) <= Scoring.Round(hi)
  {
    MeanAtMost(sum, n, hi);
    MeanAtLeast(sum, n, lo);
    Scoring.RoundMonotone(lo, sum / n);
    Scoring.RoundMonotone(sum / n, hi);
  }

  /** The rounded average accuracy lies between the rounded bounds of the accuracies. */
  lemma AverageWithinBounds(scores: seq<GameScore>, lo: real, hi: real)
    requires scores != []
    requires forall i :: 0 <= i < |scores| ==> lo <= scores[i].accuracy <= hi
    ensures Scoring.Round(lo) <= ComputeStats(scores).averageAccuracy <= Scoring.Round(hi)
  {
    var n := |scores| as real;
    assert ComputeStats(scores).averageAccuracy == Scoring.Round(AccuracySum(scores) / n);
    AccuracySumAtMost(scores, hi);
    AccuracySumAtLeast(scores, lo);
    RoundedMeanBetween(AccuracySum(scores), n, lo, hi);
  }

  /** The rounded average accuracy is never above the rounded best accuracy. */
  lemma AverageAtMostBest(scores: seq<GameScore>)
    requires scores != []
    ensures ComputeStats(scores).averageAccuracy <= Scoring.Round(ComputeStats(scores).bestAccuracy)
  {
    var n := |scores| as real;
    var avg := AccuracySum(scores) / n;
    var best := MaxAccuracy(scores);
    assert ComputeStats(scores).averageAccuracy == Scoring.Round(avg);
    assert ComputeStats(scores).bestAccuracy == best;
    AccuracySumAtMost(scores, best);
    MeanAtMost(AccuracySum(scores), n, best);
    Scoring.RoundMonotone(avg, best);
  }

  /**
   * Adding a score to the front updates the statistics as one more game:
   * one more game, its time added, the best the larger of the two, one more
   * count for its difficulty and no other count changed.
   */
  lemma StatsAfterAdd(score: GameScore, scores: seq<GameScore>)
    ensures ComputeStats([score] + scores).totalGames == ComputeStats(scores).totalGames + 1
    ensures ComputeStats([score] + scores).totalTimePlayed == ComputeStats(scores).totalTimePlayed + score.elapsedMs
    ensures ComputeStats([score] + scores).bestAccuracy ==
      if scores == [] || score.accuracy >= ComputeStats(scores).bestAccuracy
      then score.accuracy else ComputeStats(scores).bestAccuracy
    ensures var before := ComputeStats(scores).gamesByDifficulty;
      ComputeStats([score] + scores).gamesByDifficulty ==
        before[score.difficulty := Tally(before, score.difficulty) + 1]
  {
    var all := [score] + scores;
    assert all[1..] == scores;
    assert ComputeStats(scores).totalTimePlayed == TimeSum(scores);
    assert ComputeStats(scores).gamesByDifficulty == CountByDifficulty(scores);
  }

  /** Three stored games with accuracies 80, 90 and 100: three games, mean accuracy 90. */
  lemma AverageExample()
    ensures var s := [GameScore("1", 10, 80.0, 30000, 0), GameScore("2", 10, 90.0, 25000, 0),
                      GameScore("3", 10, 100.0, 20000, 0)];
      ComputeStats(s).totalGames == 3 && ComputeStats(s).averageAccuracy == 90
  {
    var s := [GameScore("1", 10, 80.0, 30000, 0), GameScore("2", 10, 90.0, 25000, 0),
              GameScore("3", 10, 100.0, 20000, 0)];
    assert s[1..][1..][1..] == [];
    assert AccuracySum(s) == 270.0;
    assert AccuracySum(s) / 3.0 == 90.0;
  }

  /** Accuracies 80, 95 and 85: the best is 95. */
  lemma BestExample()
    ensures var s := [GameScore("1", 10, 80.0, 30000, 0), GameScore("2", 10, 95.0, 25000, 0),
                      GameScore("3", 10, 85.0, 20000, 0)];
      ComputeStats(s).bestAccuracy == 95.0
  {
    var s := [GameScore("1", 10, 80.0, 30000, 0), GameScore("2", 10, 95.0, 25000, 0),
              GameScore("3", 10, 85.0, 20000, 0)];
    assert s[1..][1..] == [s[2]];
  }

  /** Games of 30 s and 25 s: 55 s played in all. */
  lemma TimeExample()
    ensures var s := [GameScore("1", 10, 80.0, 30000, 0), GameScore("2", 10, 90.0, 25000, 0)];
      ComputeStats(s).totalTimePlayed == 55000
  {
    var s := [GameScore("1", 10, 80.0, 30000, 0), GameScore("2", 10, 90.0, 25000, 0)];
    assert s[1..][1..] == [];
  }

  /** Difficulties 10, 25, 10 and 100: two games at 10, one each at 25 and 100. */
  lemma CountsExample()
    ensures var s := [GameScore("1", 10, 80.0, 30000, 0), GameScore("2", 25, 90.0, 25000, 0),
                      GameScore("3", 10, 85.0, 28000, 0), GameScore("4", 100, 70.0, 60000, 0)];
      ComputeStats(s).gamesByDifficulty == map[10 := 2, 25 := 1, 100 := 1]
  {
    var s := [GameScore("1", 10, 80.0, 30000, 0), GameScore("2", 25, 90.0, 25000, 0),
              GameScore("3", 10, 85.0, 28000, 0), GameScore("4", 100, 70.0, 60000, 0)];
    assert s[1..][1..][1..][1..] == [];
    assert CountByDifficulty(s[1..][1..][1..]) == map[100 := 1];
    assert CountByDifficulty(s[1..][1..]) == map[10 := 1, 100 := 1];
    assert CountByDifficulty(s[1..]) == map[10 := 1, 25 := 1, 100 := 1];
  }

  // ---------------------------------------------------------------------
  // The score list

  /** The in-memory score list of `useProgress`, newest first. */
  class ProgressStore {
    var scores: seq<GameScore>

    /** The hook starts with no scores. */
    constructor()
      ensures scores == []
    {
      scores := [];
    }

    /** Installs the list read back at start-up when storage holds one. */
    method Load(stored: Option<seq<GameScore>>)
      modifies this
      ensures scores == if stored.Some? then stored.value else old(scores)
    {
      if stored.Some? {
        scores := stored.value;
      }
    }

    /**
     * `addScore(score)`: the new score, identified by the decimal text of
     * the first clock reading and stamped with the second, goes in front of
     * the list.
     */
    method AddScore(difficulty: Difficulty, accuracy: real, elapsedMs: int, idClock: int, now: int)
      returns (newScore: GameScore)
      modifies this
      ensures newScore == GameScore(IntToString(idClock), difficulty, accuracy, elapsedMs, now)
      ensures scores == [newScore] + old(scores)
    {
      newScore := GameScore(IntToString(idClock), difficulty, accuracy, elapsedMs, now);
      scores := [newScore] + scores;
    }

    /** `resetProgress()`: the list becomes empty. */
    method ResetProgress()
      modifies this
      ensures scores == []
    {
      scores := [];
    }

    /** `getStats()` on the current list. */
    function Stats(): ProgressStats
      reads this
    {
      ComputeStats(scores)
    }
  }

  /**
   * A score's id is the decimal text of the clock reading: two scores added
   * at different non-negative clock readings get different ids, and at a
   * single reading the id is the timestamp written out.
   */
  lemma IdsFollowTheClock(t1: int, t2: int)
    requires t1 >= 0 && t2 >= 0
    ensures IntToString(t1) == IntToString(t2) <==> t1 == t2
    ensures ReadsAs(IntToString(t1), t1)
  {
    NatToDecimalInjective(t1, t2);
    DecimalRoundTrip(t1);
  }
}
