/** The three-way recommendation every analyst produces. */
module Verdict {

  datatype Signal = Bullish | Bearish | Neutral

  /** `score >= 0.7 * maxScore`, the bullish score threshold of both analysts. */
  predicate HighScore(score: int, maxScore: int)
  {
    score as real >= 0.7 * maxScore as real
  }

  /** `score <= 0.3 * maxScore`, the bearish score threshold of both analysts. */
  predicate LowScore(score: int, maxScore: int)
  {
    score as real <= 0.3 * maxScore as real
  }

  /** On the maximum of 15 used by both analysts the thresholds fall at 11 and 4:
      scores are integers, so `>= 10.5` means `>= 11` and `<= 4.5` means `<= 4`. */
  lemma ThresholdsOnFifteen(score: int)
    ensures HighScore(score, 15) <==> score >= 11
    ensures LowScore(score, 15) <==> score <= 4
    ensures !(HighScore(score, 15) && LowScore(score, 15))
  {
  }
}
