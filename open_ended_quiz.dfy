/**
 * The open-ended level: free-text answers, optional LLM help per question,
 * and a "finalize" step that saves the number of questions as the score and
 * unlocks the memo review.
 */
module OpenEndedQuiz {
  import opened Wrappers
  import opened Text
  import opened Files
  import opened ScoreStore
  import opened Scoring
  import opened QuizCatalog
  import opened Session
  import opened Home
  import Chat

  const LEVEL: string := "Level 1: Fundamentals"
  const NO_ANSWER: string := "No Answer Provided."

  /** The help helper's own missing-key message. */
  const HELP_KEY_ERROR: string :=
    Chat.FAILURE_MARK + " ERROR: " + "Please configure your API key on the 'Multi-LLM Chat Assistant' page first."

  /**
   * The page's questions: the level's entry of the catalog file, or nothing
   * (the page stops) when the catalog is missing, unreadable or empty, or
   * has no non-empty entry for the level.
   */
  function PageQuestions(file: JsonFile<Catalog>): (r: Option<Level>)
    ensures r.Some? <==> LEVEL in Load(file) && Load(file)[LEVEL] != map[]
    ensures r.Some? ==> r.value == Load(file)[LEVEL]
    ensures !file.Decoded? ==> r.None?
  {
    var catalog := Load(file);
    if catalog == map[] then None
    else if LEVEL in catalog && catalog[LEVEL] != map[] then Some(catalog[LEVEL])
    else None
  }

  /** What the provider's SDK did with the help prompt: raised, or answered with a possibly absent text. */
  datatype HelpOutcome = HelpRaised(message: string) | HelpAnswered(content: Option<string>)

  /**
   * `get_llm_help`: the missing-key message before any provider is
   * contacted; the provider's text for a known provider; an error string
   * for an exception; and `None` for a provider it does not know.
   */
  function GetLlmHelp(apiKey: Option<string>, provider: string, outcome: HelpOutcome): (r: Option<string>)
    ensures Chat.KeyMissing(apiKey) ==> r == Some(HELP_KEY_ERROR)
    ensures !Chat.KeyMissing(apiKey) && !Chat.KnownProvider(provider) ==> r == None
    ensures !Chat.KeyMissing(apiKey) && Chat.KnownProvider(provider) && outcome.HelpRaised? ==>
              r == Some(Chat.ApiError(outcome.message))
    ensures !Chat.KeyMissing(apiKey) && Chat.KnownProvider(provider) && outcome.HelpAnswered? ==>
              r == outcome.content
    ensures Chat.KeyMissing(apiKey) || (Chat.KnownProvider(provider) && outcome.HelpRaised?) ==>
              r.Some? && StartsWith(r.value, Chat.FAILURE_MARK)
  {
    StartsWithConcat(Chat.FAILURE_MARK, " ERROR: " + "Please configure your API key on the 'Multi-LLM Chat Assistant' page first.");
    assert HELP_KEY_ERROR ==
           Chat.FAILURE_MARK + (" ERROR: " + "Please configure your API key on the 'Multi-LLM Chat Assistant' page first.");
    if Chat.KeyMissing(apiKey) then Some(HELP_KEY_ERROR)
    else if !Chat.KnownProvider(provider) then None
    else match outcome
      case HelpRaised(e) => Some(Chat.ApiError(e))
      case HelpAnswered(content) => content
  }

  /** An exception's error string can never be mistaken for the missing-key message. */
  lemma ApiErrorIsNotKeyError(message: string)
    ensures Chat.ApiError(message) != HELP_KEY_ERROR
  {
    assert HELP_KEY_ERROR[2] == 'E';
    assert Chat.ApiError(message)[2] == 'L';
  }

  /**
   * With a key configured, the help text is never the missing-key message
   * unless the provider itself wrote it.
   */
  lemma ConfiguredKeyNeverGetsKeyError(apiKey: Option<string>, provider: string, outcome: HelpOutcome)
    requires !Chat.KeyMissing(apiKey)
    requires outcome.HelpAnswered? ==> outcome.content != Some(HELP_KEY_ERROR)
    ensures GetLlmHelp(apiKey, provider, outcome) != Some(HELP_KEY_ERROR)
  {
    if outcome.HelpRaised? {
      ApiErrorIsNotKeyError(outcome.message);
    }
  }

  /**
   * "Ask LLM for Help": the button is disabled without a key, so nothing is
   * asked or recorded then; with a key the helper's reply is stored as the
   * question's latest help.
   */
  method AskForHelp(session: SessionState, questionId: string, apiKey: Option<string>,
                    provider: string, outcome: HelpOutcome)
    requires session.helpHistory.Some? && LEVEL in session.helpHistory.value
    modifies session`helpHistory
    ensures Chat.KeyMissing(apiKey) ==> session.helpHistory == old(session.helpHistory)
    ensures !Chat.KeyMissing(apiKey) ==>
              session.helpHistory == Some(old(session.helpHistory.value)[LEVEL :=
                old(session.helpHistory.value[LEVEL])[questionId := GetLlmHelp(apiKey, provider, outcome)]])
  {
    if !Chat.KeyMissing(apiKey) {
      var help := GetLlmHelp(apiKey, provider, outcome);
      session.RecordHelp(LEVEL, questionId, help);
    }
  }

  /** The review's submitted answer: the stored answer, or `"No Answer Provided."` when there is none. */
  function ReviewAnswer(levelAnswers: Answers, questionId: string): (shown: Answer)
    ensures questionId in levelAnswers ==> shown == levelAnswers[questionId]
    ensures questionId !in levelAnswers ==> shown == Text(NO_ANSWER)
  {
    if questionId in levelAnswers then levelAnswers[questionId] else Text(NO_ANSWER)
  }

  /**
   * The question loop: each question's text area shows the stored answer
   * and returns what it holds (`shown`), which is written back at once. After
   * one pass the review reads each question's answer back, never the
   * `"No Answer Provided."` fallback.
   */
  method RenderQuestions(session: SessionState, questions: Level, shown: map<string, string>)
    requires session.answers.Some? && LEVEL in session.answers.value
    requires questions.Keys <= shown.Keys
    modifies session`answers
    ensures session.answers.Some? && LEVEL in session.answers.value
    ensures session.answers.value ==
              old(session.answers.value)[LEVEL := old(session.answers.value[LEVEL]) + map q | q in questions :: Text(shown[q])]
    ensures forall q :: q in questions ==>
              q in session.answers.value[LEVEL] && ReviewAnswer(session.answers.value[LEVEL], q) == Text(shown[q])
  {
    var before := session.answers.value;
    var ids := questions.Keys;
    assert questions.Keys - ids == {};
    ghost var levelBefore := before[LEVEL];
    assert levelBefore + map[] == levelBefore;
    assert before[LEVEL := levelBefore] == before;
    while ids != {}
      invariant ids <= questions.Keys
      invariant session.answers ==
                  Some(before[LEVEL := before[LEVEL] + map q | q in questions.Keys - ids :: Text(shown[q])])
      decreases ids
    {
      var id :| id in ids;
      ghost var done := map q | q in questions.Keys - ids :: Text(shown[q]);
      ghost var next := map q | q in questions.Keys - (ids - {id}) :: Text(shown[q]);
      session.SetAnswer(LEVEL, id, Text(shown[id]));
      assert session.answers.value == before[LEVEL := (before[LEVEL] + done)[id := Text(shown[id])]];
      assert done[id := Text(shown[id])] == next;
      assert (before[LEVEL] + done)[id := Text(shown[id])] == before[LEVEL] + next;
      ids := ids - {id};
    }
    assert questions.Keys - ids == questions.Keys;
  }

  /**
   * "Finalize and Save Score": raise the review flag, then save the number of
   * questions as the score together with the answers in progress.
   */
  method Finalize(store: Store, session: SessionState, username: string, questions: Level, now: string)
    returns (finalScore: nat)
    requires session.answers.Some? && LEVEL in session.answers.value
    modifies store, session`reviewed
    ensures finalScore == |questions|
    ensures store.file == Decoded(Put(Load(old(store.file)), username, LEVEL,
                                      ScoreRecord(finalScore, now, session.answers.value[LEVEL])))
    ensures session.answers == old(session.answers)
    ensures session.reviewed == old(session.reviewed) + {LEVEL}
  {
    session.MarkReviewed(LEVEL);
    finalScore := AttemptScore(questions, session.answers.value[LEVEL]);
    var answerData := session.answers.value[LEVEL];
    store.SaveScore(username, LEVEL, finalScore, answerData, now);
  }

  /** This level is worth 2 points on the home page. */
  lemma LevelMaxScore()
    ensures MaxScore(LEVEL) == 2
  {
    assert '5' !in LEVEL;
    if Contains(LEVEL, "Level 5") {
      ContainsOnlyCharsOf(LEVEL, "Level 5", '5');
    }
  }

  /**
   * After finalizing, the home page shows the tick for this level exactly
   * when the level has two questions, whatever was answered.
   */
  lemma HomeStatusAfterFinalize(scores: Scores, username: string, questions: Level, now: string, answers: Answers)
    ensures var record := ScoreRecord(AttemptScore(questions, answers), now, answers);
            LevelStatus(Put(scores, username, LEVEL, record), username, LEVEL).1 == TICK <==> |questions| == 2
  {
    LevelMaxScore();
  }
}
