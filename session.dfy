/** The quiz bank as loaded from the catalog file; read-only after loading. */
module QuizCatalog {

  /** One entry `key: statement` of a choice question's `options` object. */
  datatype OptionEntry = OptionEntry(key: string, text: string)

  datatype Question =
    | OpenEnded(prompt: string, memo: string)
    | MultiSelect(prompt: string, options: seq<OptionEntry>, correctAnswers: seq<string>, memo: string)
    | SingleSelect(prompt: string, options: seq<OptionEntry>, correctAnswer: string, memo: string)

  /** The questions of one level, by question id. */
  type Level = map<string, Question>

  /** All levels, by level name. */
  type Catalog = map<string, Level>

  /** The question id whose answer is a list of option keys. */
  const MULTI_SELECT_ID: string := "Q1_Multi"
}

/**
 * The per-session state the quiz pages share: the answers in progress
 * (`multi_level_answers`), the LLM help history
 * (`multi_level_help_history`) and the `reviewed_<level>` flags.
 */
module Session {
  import opened Wrappers
  import opened ScoreStore
  import opened QuizCatalog

  /** The starting answer of a question: an empty key list for the multi-select question, empty text otherwise. */
  function InitialValue(questionId: string): (a: Answer)
    ensures a.Keys? <==> questionId == MULTI_SELECT_ID
    ensures a.Keys? ==> a.keys == []
    ensures a.Text? ==> a.text == ""
  {
    if questionId == MULTI_SELECT_ID then Keys([]) else Text("")
  }

  /** The starting answers of every level of the catalog. */
  function InitialAnswers(catalog: Catalog): (r: map<string, Answers>)
    ensures r.Keys == catalog.Keys
    ensures forall l :: l in r ==> r[l].Keys == catalog[l].Keys
    ensures forall l, q :: l in catalog && q in catalog[l] ==> r[l][q] == InitialValue(q)
  {
    map l | l in catalog :: map q | q in catalog[l] :: InitialValue(q)
  }

  /** The answers the open-ended page creates for its level when missing: empty text for every question. */
  function BlankAnswers(questions: Level): (r: Answers)
    ensures r.Keys == questions.Keys
    ensures forall q :: q in r ==> r[q] == Text("")
  {
    map q | q in questions :: Text("")
  }

  class SessionState {
    var answers: Option<map<string, Answers>>
    var helpHistory: Option<map<string, map<string, Option<string>>>>
    var reviewed: set<string>

    /** A fresh browser session holds none of the quiz state. */
    constructor ()
      ensures answers == None && helpHistory == None && reviewed == {}
    {
      answers := None;
      helpHistory := None;
      reviewed := {};
    }

    /**
     * Fills `multi_level_answers` level by level and question by question,
     * only when it is absent; an existing one is left as it is.
     */
    method InitAnswers(catalog: Catalog)
      modifies this`answers
      ensures old(answers).Some? ==> answers == old(answers)
      ensures old(answers).None? ==> answers == Some(InitialAnswers(catalog))
    {
      if answers.None? {
        answers := Some(map[]);
        var levels := catalog.Keys;
        while levels != {}
          invariant levels <= catalog.Keys
          invariant answers.Some?
          invariant answers.value.Keys == catalog.Keys - levels
          invariant forall l :: l in answers.value ==> answers.value[l] == InitialAnswers(catalog)[l]
          decreases levels
        {
          var level :| level in levels;
          answers := Some(answers.value[level := map[]]);
          var ids := catalog[level].Keys;
          while ids != {}
            invariant ids <= catalog[level].Keys
            invariant answers.Some? && answers.value.Keys == catalog.Keys - levels + {level}
            invariant answers.value[level].Keys == catalog[level].Keys - ids
            invariant forall q :: q in answers.value[level] ==> answers.value[level][q] == InitialValue(q)
            invariant forall l :: l in answers.value && l != level ==> answers.value[l] == InitialAnswers(catalog)[l]
            decreases ids
          {
            var id :| id in ids;
            answers := Some(answers.value[level := answers.value[level][id := InitialValue(id)]]);
            ids := ids - {id};
          }
          assert answers.value[level] == InitialAnswers(catalog)[level];
          levels := levels - {level};
        }
        assert answers.value == InitialAnswers(catalog);
      }
    }

    /** Creates an empty help history for every level, only when it is absent. */
    method InitHelpHistory(catalog: Catalog)
      modifies this`helpHistory
      ensures old(helpHistory).Some? ==> helpHistory == old(helpHistory)
      ensures old(helpHistory).None? ==> helpHistory.Some? && helpHistory.value.Keys == catalog.Keys
      ensures old(helpHistory).None? ==> forall l :: l in helpHistory.value ==> helpHistory.value[l] == map[]
    {
      if helpHistory.None? {
        helpHistory := Some(map l | l in catalog :: map[]);
      }
    }

    /**
     * The open-ended page's "ensure this level's state exists": creates the
     * level's blank answers and empty help history only when missing, and
     * never overwrites what is there.
     */
    method EnsureLevel(level: string, questions: Level)
      requires answers.Some? && helpHistory.Some?
      modifies this`answers, this`helpHistory
      ensures answers.Some? && helpHistory.Some?
      ensures level in old(answers.value) ==> answers == old(answers)
      ensures level !in old(answers.value) ==> answers.value == old(answers.value)[level := BlankAnswers(questions)]
      ensures level in old(helpHistory.value) ==> helpHistory == old(helpHistory)
      ensures level !in old(helpHistory.value) ==> helpHistory.value == old(helpHistory.value)[level := map[]]
    {
      if level !in answers.value {
        answers := Some(answers.value[level := map q | q in questions :: Text("")]);
      }
      if level !in helpHistory.value {
        helpHistory := Some(helpHistory.value[level := map[]]);
      }
    }

    /** Stores one answer as the user types or selects it; nothing else changes. */
    method SetAnswer(level: string, questionId: string, answer: Answer)
      requires answers.Some? && level in answers.value
      modifies this`answers
      ensures answers == Some(old(answers.value)[level := old(answers.value[level])[questionId := answer]])
    {
      answers := Some(answers.value[level := answers.value[level][questionId := answer]]);
    }

    /**
     * Stores the latest LLM help for one question, `None` when the helper
     * returned nothing; nothing else changes.
     */
    method RecordHelp(level: string, questionId: string, help: Option<string>)
      requires helpHistory.Some? && level in helpHistory.value
      modifies this`helpHistory
      ensures helpHistory == Some(old(helpHistory.value)[level := old(helpHistory.value[level])[questionId := help]])
    {
      helpHistory := Some(helpHistory.value[level := helpHistory.value[level][questionId := help]]);
    }

    /** Sets the `reviewed_<level>` flag that makes the review visible. */
    method MarkReviewed(level: string)
      modifies this`reviewed
      ensures reviewed == old(reviewed) + {level}
    {
      reviewed := reviewed + {level};
    }
  }
}
