/**
 * The home page's per-level score display: the maximum score of a level,
 * the "score / max" label and the status emoji shown on its button.
 */
module Home {
  import opened Wrappers
  import opened Text
  import opened ScoreStore

  const TICK: string := "\U{2705}"
  const ARROW: string := "\U{27A1}\U{FE0F}"
  const WARNING: string := "\U{26A0}\U{FE0F}"
  const NOT_TAKEN: string := "Not Taken"

  /** The level names of the navigation, in display order. */
  const QUIZ_LEVELS: seq<string> := [
    "Level 1: Fundamentals",
    "Level 2: Architecture",
    "Level 3: Advanced Concepts",
    "Level 4: Implementation",
    "Level 5: Multi-Select"
  ]

  /** The multi-select level is worth 5 points (4 + 1); every other level 2 (two questions). */
  function MaxScore(levelName: string): (m: nat)
    ensures m == 5 || m == 2
    ensures m == 5 <==> Contains(levelName, "Level 5")
  {
    if Contains(levelName, "Level 5") then 5 else 2
  }

  /** Of the five navigation levels only the last one is worth 5 points. */
  lemma MaxScoresOfQuizLevels()
    ensures MaxScore(QUIZ_LEVELS[4]) == 5
    ensures forall i :: 0 <= i < 4 ==> MaxScore(QUIZ_LEVELS[i]) == 2
  {
    assert QUIZ_LEVELS[4][..7] == "Level 5";
    forall i | 0 <= i < 4 ensures !Contains(QUIZ_LEVELS[i], "Level 5") {
      assert '5' !in QUIZ_LEVELS[i];
      if Contains(QUIZ_LEVELS[i], "Level 5") {
        ContainsOnlyCharsOf(QUIZ_LEVELS[i], "Level 5", '5');
      }
    }
  }

  /** `"{score_value} / {max_score}"` for a taken level, `"Not Taken"` otherwise. */
  function ScoreLabel(record: Option<ScoreRecord>, maxScore: int): (caption: string)
    ensures caption == NOT_TAKEN <==> record.None?
  {
    if record.Some? then
      var shown := IntToString(record.value.scoreValue);
      assert (shown + " / " + IntToString(maxScore))[0] == shown[0];
      shown + " / " + IntToString(maxScore)
    else NOT_TAKEN
  }

  /** Two labels of the same level read the same exactly when the scores are the same. */
  lemma ScoreLabelDeterminesScore(r1: ScoreRecord, r2: ScoreRecord, maxScore: int)
    ensures ScoreLabel(Some(r1), maxScore) == ScoreLabel(Some(r2), maxScore) <==> r1.scoreValue == r2.scoreValue
  {
    var s1, s2 := IntToString(r1.scoreValue), IntToString(r2.scoreValue);
    var tail := " / " + IntToString(maxScore);
    assert ScoreLabel(Some(r1), maxScore) == s1 + tail;
    assert ScoreLabel(Some(r2), maxScore) == s2 + tail;
    if s1 + tail == s2 + tail {
      CancelSuffix(s1, s2, tail);
      IntToStringInjective(r1.scoreValue, r2.scoreValue);
    }
  }

  /** The button's emoji: a tick for full marks, an arrow when not taken, a warning otherwise. */
  function StatusEmoji(record: Option<ScoreRecord>, maxScore: int): (e: string)
    ensures e == TICK <==> record.Some? && record.value.scoreValue == maxScore
    ensures e == ARROW <==> record.None?
    ensures e == WARNING <==> record.Some? && record.value.scoreValue != maxScore
  {
    if record.Some? && record.value.scoreValue == maxScore then TICK
    else if record.None? then ARROW
    else WARNING
  }

  /** What the home page shows for one level of one user: the score label and the emoji. */
  function LevelStatus(scores: Scores, user: string, levelName: string): (status: (string, string))
    ensures status.1 == TICK <==>
              Lookup(scores, user, levelName).Some? && scores[user][levelName].scoreValue == MaxScore(levelName)
    ensures status.0 == NOT_TAKEN <==> status.1 == ARROW
  {
    var record := Lookup(scores, user, levelName);
    (ScoreLabel(record, MaxScore(levelName)), StatusEmoji(record, MaxScore(levelName)))
  }
}
