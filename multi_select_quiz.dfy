/**
 * The multi-select level: a multi-select question with partial credit and a
 * single-select question answered through a radio whose labels are
 * `"key. statement"` and are mapped back to the option key.
 */
module MultiSelectQuiz {
  import opened Wrappers
  import opened Files
  import opened ScoreStore
  import opened Scoring
  import opened QuizCatalog
  import opened Session
  import opened Home

  const LEVEL: string := "Level 5: Multi-Select"
  const SINGLE_SELECT_ID: string := "Q2_Single"

  /** The radio label of an option: `f"{k}. {v}"`. */
  function Label(entry: OptionEntry): (lbl: string)
    ensures |lbl| == |entry.key| + 2 + |entry.text|
    ensures entry.key <= lbl && lbl[|entry.key|] == '.'
  {
    entry.key + ". " + entry.text
  }

  /** `[f"{k}. {v}" for k, v in options.items()]`: one label per option, in order. */
  function RadioOptions(options: seq<OptionEntry>): (labels: seq<string>)
    ensures |labels| == |options|
    ensures forall i :: 0 <= i < |options| ==> labels[i] == Label(options[i])
  {
    seq(|options|, i requires 0 <= i < |options| => Label(options[i]))
  }

  /**
   * `{f"{k}. {v}": k for k, v in options.items()}`: built in order, so a
   * later option with the same label replaces an earlier one.
   */
  function KeyMap(options: seq<OptionEntry>): (m: map<string, string>)
    ensures forall i :: 0 <= i < |options| ==> Label(options[i]) in m
    ensures forall lbl :: lbl in m ==>
              exists i :: 0 <= i < |options| && Label(options[i]) == lbl && m[lbl] == options[i].key
    decreases |options|
  {
    if options == [] then map[]
    else
      var init, last := options[..|options| - 1], options[|options| - 1];
      var m := KeyMap(init);
      assert forall i :: 0 <= i < |init| ==> init[i] == options[i];
      m[Label(last) := last.key]
  }

  /** Option keys written without a dot, such as the letters "A" to "D". */
  predicate DotFreeKeys(options: seq<OptionEntry>) {
    forall i :: 0 <= i < |options| ==> '.' !in options[i].key
  }

  /** Keys without a dot are read back from their labels unambiguously. */
  lemma {:induction false} LabelDeterminesKey(a: OptionEntry, b: OptionEntry)
    requires '.' !in a.key && '.' !in b.key
    requires Label(a) == Label(b)
    ensures a.key == b.key
  {
    var la, lb := Label(a), Label(b);
    assert la[|a.key|] == '.' && lb[|b.key|] == '.';
    assert forall i :: 0 <= i < |a.key| ==> la[i] == a.key[i] && la[i] != '.';
    assert forall i :: 0 <= i < |b.key| ==> lb[i] == b.key[i] && lb[i] != '.';
    assert |a.key| == |b.key|;
    assert a.key == la[..|a.key|];
    assert b.key == lb[..|b.key|];
  }

  /** Every option's label maps back to that option's key. */
  lemma KeyMapRecoversKey(options: seq<OptionEntry>, i: int)
    requires DotFreeKeys(options) && 0 <= i < |options|
    ensures KeyMap(options)[Label(options[i])] == options[i].key
  {
    var m := KeyMap(options);
    var lbl := Label(options[i]);
    var j :| 0 <= j < |options| && Label(options[j]) == lbl && m[lbl] == options[j].key;
    LabelDeterminesKey(options[i], options[j]);
  }

  /** `key in options`, with the position of that option. */
  function FindKey(options: seq<OptionEntry>, key: string): (r: Option<nat>)
    ensures r.Some? <==> exists i :: 0 <= i < |options| && options[i].key == key
    ensures r.Some? ==> r.value < |options| && options[r.value].key == key
    decreases |options|
  {
    if options == [] then None
    else if options[0].key == key then Some(0)
    else match FindKey(options[1..], key)
      case None => None
      case Some(j) => Some(j + 1)
  }

  /** `labels.index(x)` when `x in labels`: its first position. */
  function IndexOf(labels: seq<string>, x: string): (r: Option<nat>)
    ensures r.Some? <==> x in labels
    ensures r.Some? ==> r.value < |labels| && labels[r.value] == x
    ensures r.Some? ==> forall k :: 0 <= k < r.value ==> labels[k] != x
    decreases |labels|
  {
    if labels == [] then None
    else if labels[0] == x then Some(0)
    else match IndexOf(labels[1..], x)
      case None => None
      case Some(j) => Some(j + 1)
  }

  /**
   * The radio's default index: the position of the previous answer's label
   * when the previous answer is an option key, none otherwise.
   */
  function DefaultIndex(options: seq<OptionEntry>, previous: string): (r: Option<nat>)
    ensures r.Some? <==> exists i :: 0 <= i < |options| && options[i].key == previous
    ensures r.Some? ==> r.value < |options|
  {
    match FindKey(options, previous)
    case None => None
    case Some(j) => IndexOf(RadioOptions(options), Label(options[j]))
  }

  /** With dot-free keys the default index points at the option of the previous answer. */
  lemma DefaultIndexPointsAtPrevious(options: seq<OptionEntry>, previous: string)
    requires DotFreeKeys(options)
    requires DefaultIndex(options, previous).Some?
    ensures options[DefaultIndex(options, previous).value].key == previous
  {
    var j := FindKey(options, previous).value;
    var k := DefaultIndex(options, previous).value;
    assert Label(options[k]) == Label(options[j]);
    LabelDeterminesKey(options[k], options[j]);
  }

  /** What the radio holds before the user touches it: the label at the default index, or nothing. */
  function RadioSelection(options: seq<OptionEntry>, index: Option<nat>): (selection: Option<string>)
    requires index.Some? ==> index.value < |options|
    ensures selection.Some? <==> index.Some?
  {
    match index
    case None => None
    case Some(i) => Some(Label(options[i]))
  }

  /** `key_map.get(selected_label, "")`: the key of the selected label, `""` when nothing is selected. */
  function SelectedKey(options: seq<OptionEntry>, selection: Option<string>): (key: string)
    ensures selection.None? ==> key == ""
  {
    var keys := KeyMap(options);
    if selection.Some? && selection.value in keys then keys[selection.value] else ""
  }

  /**
   * Re-rendering the page restores the previous answer: the radio's default
   * selection maps back to the previous key when it is an option key, and to
   * `""` otherwise.
   */
  lemma RadioRoundTrip(options: seq<OptionEntry>, previous: string)
    requires DotFreeKeys(options)
    ensures SelectedKey(options, RadioSelection(options, DefaultIndex(options, previous)))
            == if exists i :: 0 <= i < |options| && options[i].key == previous then previous else ""
  {
    var index := DefaultIndex(options, previous);
    if index.Some? {
      DefaultIndexPointsAtPrevious(options, previous);
      KeyMapRecoversKey(options, index.value);
    }
  }

  /** With no radio selection the single-select question scores 0 (for any non-empty correct key). */
  lemma NoSelectionScoresZero(options: seq<OptionEntry>, correctAnswer: string)
    requires correctAnswer != ""
    ensures SingleSelectScore(SelectedKey(options, None), correctAnswer) == 0
  {
  }

  /** The level's score: partial credit on the first question plus the second question's point. */
  function LevelScore(selectedKeys: seq<string>, correctAnswers: seq<string>,
                      selectedKey: string, correctAnswer: string): (r: nat)
    ensures r <= |ToSet(correctAnswers)| + 1
    ensures r == |ToSet(correctAnswers)| + 1 <==>
              ToSet(correctAnswers) <= ToSet(selectedKeys) && selectedKey == correctAnswer
  {
    MultiSelectScore(selectedKeys, correctAnswers) + SingleSelectScore(selectedKey, correctAnswer)
  }

  /** The answers saved with the score: the submitted key list and the single key. */
  function LevelAnswers(selectedKeys: seq<string>, selectedKey: string): (a: Answers)
    ensures a.Keys == {MULTI_SELECT_ID, SINGLE_SELECT_ID}
    ensures a[MULTI_SELECT_ID] == Keys(selectedKeys) && a[SINGLE_SELECT_ID] == Text(selectedKey)
  {
    map[MULTI_SELECT_ID := Keys(selectedKeys), SINGLE_SELECT_ID := Text(selectedKey)]
  }

  /**
   * "Check My Selection and Save Score": score both questions, save the
   * score with the submitted answers, and raise the review flag.
   */
  method Submit(store: Store, session: SessionState, username: string,
                correctAnswers: seq<string>, correctAnswer: string,
                selectedKeys: seq<string>, selectedKey: string, now: string)
    returns (finalScore: nat)
    modifies store, session`reviewed
    ensures finalScore == LevelScore(selectedKeys, correctAnswers, selectedKey, correctAnswer)
    ensures store.file == Decoded(Put(Load(old(store.file)), username, LEVEL,
                                      ScoreRecord(finalScore, now, LevelAnswers(selectedKeys, selectedKey))))
    ensures session.reviewed == old(session.reviewed) + {LEVEL}
  {
    var userSet := ToSet(selectedKeys);
    var correctSet := ToSet(correctAnswers);
    var scoreQ1 := |userSet * correctSet|;
    var scoreQ2 := if selectedKey == correctAnswer then 1 else 0;
    finalScore := scoreQ1 + scoreQ2;
    var answerData := map[MULTI_SELECT_ID := Keys(selectedKeys), SINGLE_SELECT_ID := Text(selectedKey)];
    store.SaveScore(username, LEVEL, finalScore, answerData, now);
    session.MarkReviewed(LEVEL);
  }

  /** The review's score: `load_scores().get(user, {}).get(level, {}).get("score_value", 0)`. */
  function ReviewScore(scores: Scores, username: string): (score: int)
    ensures Lookup(scores, username, LEVEL).None? ==> score == 0
  {
    match Lookup(scores, username, LEVEL)
    case Some(record) => record.scoreValue
    case None => 0
  }

  /** The review reads back exactly the score and answers just saved, over any earlier store file. */
  lemma ReviewAfterSubmit(file: JsonFile<Scores>, username: string, score: nat, now: string, answers: Answers)
    ensures var after := Load(Decoded(Put(Load(file), username, LEVEL, ScoreRecord(score, now, answers))));
            ReviewScore(after, username) == score && after[username][LEVEL].answers == answers
  {
  }

  /**
   * With four correct keys, the home page shows the tick for this level
   * exactly when every correct key was picked and the single key is right.
   */
  lemma HomeTickIffPerfect(scores: Scores, username: string,
                           correctAnswers: seq<string>, correctAnswer: string,
                           selectedKeys: seq<string>, selectedKey: string, now: string)
    requires |ToSet(correctAnswers)| == 4
    ensures var record := ScoreRecord(LevelScore(selectedKeys, correctAnswers, selectedKey, correctAnswer), now,
                                      LevelAnswers(selectedKeys, selectedKey));
            LevelStatus(Put(scores, username, LEVEL, record), username, LEVEL).1 == TICK <==>
              ToSet(correctAnswers) <= ToSet(selectedKeys) && selectedKey == correctAnswer
  {
    assert LEVEL[..7] == "Level 5";
    assert MaxScore(LEVEL) == 5;
  }
}
