# Multi-LLM quiz and chat assistant, modelled in Dafny

This project models the logic of a small Streamlit application that lets a
named user chat with one of three LLM providers (OpenAI, Google Gemini, xAI
Grok) and take quiz levels whose scores are kept in a JSON score file. The
model covers:

- the home page (`app.py`): the per-provider sampling parameters (defaults
  merged with the provider's profile), the request each provider branch
  builds, the error strings `get_llm_response` returns instead of a reply,
  the accumulation of a streamed reply, the chat history, the secret-key
  lookup and the per-level score label and status emoji;
- the score file shared by all pages: a fail-soft load and the
  read-modify-write `save_score`;
- the session state the quiz pages share: answers in progress, the LLM help
  history and the `reviewed_<level>` flags;
- the multi-select level (`pages/5_Level_5_MultiSelect.py`): partial-credit
  scoring of the multi-select question, the single-select radio's
  label-to-key mapping and default index, the submit step and the review;
- the open-ended level (`pages/1_level_1_Quiz.py`): loading the level's
  questions, the LLM help helper, the finalize step (score = number of
  questions) and the review's fallback text.

Modules: `Wrappers` (Option), `Text` (Python's `in`, `startswith`,
`replace` and `str(int)`), `Files` (a JSON file as `Missing`,
`Undecodable` or `Decoded`), `ScoreStore`, `Scoring`, `QuizCatalog`,
`Session`, `Home`, `Chat`, `MultiSelectQuiz`, `OpenEndedQuiz`.
Objects whose fields the application changes in place are classes:
`ScoreStore.Store` (the score file), `Session.SessionState` and
`Chat.ChatSession`. The provider SDKs, the clock and the secrets file are
parameters: what an SDK returned (`Chat.SdkOutcome`,
`OpenEndedQuiz.HelpOutcome`), the timestamp (`now`) and the secrets (a map
from secret path to value).

A stream that breaks off raises out of the page. The user's prompt stays in
the history, and neither a partial reply nor an error is appended
(`Chat.ReplyText`, `Chat.ChatSession.Ask`); `Chat.StreamedTextOfPrefix`
states that the text shown before the break is a prefix of the full reply.

## Model

| member | source | states |
|---|---|---|
| Files.Load | app.py:70-75 | a missing or undecodable score file loads as the empty map; a decodable one as its content |
| ScoreStore.Lookup | app.py:107-112 | `scores.get(user, {}).get(level)` is present exactly when both keys are, and is the stored record |
| ScoreStore.Put | pages/5_Level_5_MultiSelect.py:28-35 | after saving, the (user, level) record is the new one, the user exists, and every other (user, level) record is unchanged |
| ScoreStore.PutOverwrites | pages/5_Level_5_MultiSelect.py:31-35 | saving twice for the same user and level keeps only the second record |
| ScoreStore.PutCommutes | pages/5_Level_5_MultiSelect.py:26-36 | two saves for different (user, level) pairs give the same file in either order and both records survive |
| ScoreStore.Store.LoadScores | pages/5_Level_5_MultiSelect.py:19-24 | loading returns the file's content, or the empty map when the file is missing or undecodable, which is `Files.Load` of the file |
| ScoreStore.Store.SaveScore | pages/1_level_1_Quiz.py:28-40 | the file becomes the loaded scores with the new record put in; that record reads back and no other record changes |
| Scoring.MultiSelectScore | pages/5_Level_5_MultiSelect.py:176-178 | the score is at most the number of distinct correct keys and reaches it exactly when every correct key is selected |
| Scoring.MultiSelectAtMostPicks | pages/5_Level_5_MultiSelect.py:176-178 | the score never exceeds the number of distinct selected keys |
| Scoring.RepeatedPickCountsOnce | pages/5_Level_5_MultiSelect.py:176-178 | selecting a key again does not change the score |
| Scoring.WrongPickCostsNothing | pages/5_Level_5_MultiSelect.py:176-178 | adding a wrong key does not change the score (no negative marking) |
| Scoring.NewCorrectPickEarnsOne | pages/5_Level_5_MultiSelect.py:176-178 | adding a correct key not yet selected raises the score by exactly one |
| Scoring.MultiSelectMonotone | pages/5_Level_5_MultiSelect.py:176-178 | selecting more keys never lowers the score |
| Scoring.SingleSelectScore | pages/5_Level_5_MultiSelect.py:181 | the single-select score is 1 exactly when the selected key is the correct one, else 0 |
| Scoring.ScoringExamples | pages/5_Level_5_MultiSelect.py:176-184 | worked examples: picks A and C against A, B, D score 1; all of A, B, D score 3; no pick scores 0; the single key scores 1 only when it is the correct one |
| Scoring.AttemptScore | pages/1_level_1_Quiz.py:205-206 | the open-ended score is the number of questions of the level |
| Scoring.AttemptScoreIgnoresAnswers | pages/1_level_1_Quiz.py:205-206 | the open-ended score does not depend on what was answered |
| Session.InitialValue | pages/5_Level_5_MultiSelect.py:82 | the multi-select question starts with an empty key list, every other question with empty text |
| Session.InitialAnswers | pages/1_level_1_Quiz.py:129-136 | the initial answers have exactly the catalog's levels and, per level, its question ids, each holding its initial value |
| Session.BlankAnswers | pages/1_level_1_Quiz.py:154 | the level's blank answers have exactly its question ids, each with empty text |
| Session.SessionState.InitAnswers | pages/5_Level_5_MultiSelect.py:76-83 | the loop fills the answers with the initial answers of the whole catalog, only when they are absent |
| Session.SessionState.InitHelpHistory | pages/1_level_1_Quiz.py:139-140 | an absent help history becomes an empty history per level; an existing one is kept |
| Session.SessionState.EnsureLevel | pages/1_level_1_Quiz.py:153-156 | the level's answers and help history are created when missing and never overwritten |
| Session.SessionState.SetAnswer | pages/1_level_1_Quiz.py:174 | one question's answer is replaced; nothing else changes |
| Session.SessionState.RecordHelp | pages/1_level_1_Quiz.py:186 | one question's latest help is replaced; nothing else changes |
| Session.SessionState.MarkReviewed | pages/1_level_1_Quiz.py:203 | the level's review flag is raised |
| Home.MaxScore | app.py:114-119 | a level is worth 5 exactly when its name contains "Level 5", otherwise 2 |
| Home.MaxScoresOfQuizLevels | app.py:114-119 | of the five navigation levels only "Level 5: Multi-Select" is worth 5 |
| Home.ScoreLabel | app.py:121 | the label is "Not Taken" exactly when the level has no record |
| Home.ScoreLabelDeterminesScore | app.py:121 | two labels of one level are equal exactly when the scores are equal |
| Home.StatusEmoji | app.py:122 | tick exactly for full marks, arrow exactly when not taken, warning exactly for a taken level below full marks |
| Home.LevelStatus | app.py:111-122 | the tick shows exactly when the record exists with the level's maximum score; "Not Taken" goes with the arrow |
| Chat.ProfileFor | app.py:159 | a provider without a profile gets the empty profile |
| Chat.Merge | app.py:158-159 | every profile value overrides, every other default stays, and no other key appears |
| Chat.LoadParams | app.py:158-159 | the loop's result is the defaults merged with the provider's profile |
| Chat.MergeWithoutProfile | app.py:159 | a provider without a profile gets exactly the defaults |
| Chat.ProviderParams | app.py:18-39 | OpenAI runs at 0.5/0.9, Gemini at 0.3/0.95 with top_k 30, Grok at 0.8/1.0, top_k None where the profile does not set it |
| Chat.SamplingOf | app.py:188-190 | temperature, top_p and top_k come from the parameters, with 0.7, 1.0 and None when absent |
| Chat.GeminiTopK | app.py:218 | Gemini gets top_k 40 when none was given, otherwise the given value |
| Chat.GeminiRole | app.py:212 | "assistant" becomes "model", and a role not containing "assistant" is unchanged |
| Chat.GeminiRoles | app.py:212 | "assistant" becomes "model", "user" and any role not containing "assistant" stay |
| Chat.ToGeminiContents | app.py:212 | the Gemini history has the same length and order, each entry's role mapped and its content as the one part |
| Chat.RequestFor | app.py:195-233 | a request exists exactly for the three providers; model, base URL, streaming, messages and sampling of each branch |
| Chat.DefaultSampling | app.py:188-218 | with no parameters every request uses 0.7 and 1.0, and Gemini's uses top_k 40 |
| Chat.ApiError | app.py:237 | an exception's error string starts with the failure mark |
| Chat.KeyMissing | app.py:193 | `not api_key`: the key is missing exactly when it is None or empty |
| Chat.GetLlmResponse | app.py:185-237 | a missing key gives the missing-key error before any provider is contacted; errors start with the failure mark; an error happens exactly for a missing key or a raising SDK; None exactly for an unknown provider |
| Chat.DeltaText | app.py:272 | a chunk adds text only through a first choice with a delta and non-empty content |
| Chat.StreamedText | app.py:270-274 | the reference text of a stream: empty for no chunks, and ending with the last chunk's text |
| Chat.StreamedTextAppend | app.py:270-274 | the text of two stretches of a stream is the first's text followed by the second's |
| Chat.EmptyChunkAddsNothing | app.py:272-273 | a chunk without content can be dropped from the stream without changing the text |
| Chat.StreamedTextOfPrefix | app.py:270-274 | the text of the first chunks is a prefix of the whole stream's text |
| Chat.AccumulateStream | app.py:270-274 | the loop's result is the in-order concatenation of the chunks' texts |
| Chat.ReplyText | app.py:263-280 | errors and Gemini texts are appended as they are; a completed stream appends the in-order concatenation of its chunks' texts; nothing when the turn raises |
| Chat.GetSecretKey | app.py:56-67 | an unknown provider or an absent secret gives "", otherwise the stored key |
| Chat.ApiErrorIsNotMissingKey | app.py:193-237 | an exception's error string is never the missing-key error |
| Chat.UnconfiguredKeyFails | app.py:56-67 | the missing-key error comes back exactly when the provider's key is not configured, whatever the SDK does |
| Chat.ChatSession.constructor | app.py:179-182 | a new history holds only the greeting naming the provider |
| Chat.ChatSession.Clear | app.py:174-176 | clearing empties the history |
| Chat.ChatSession.Ask | app.py:246-280 | the prompt joins the history, the whole history is sent, and the reply's text joins the history unless the turn raises |
| MultiSelectQuiz.Label | pages/5_Level_5_MultiSelect.py:133 | the label is the key, a dot and a space, then the statement: the key is a prefix followed by the dot |
| MultiSelectQuiz.RadioOptions | pages/5_Level_5_MultiSelect.py:133 | one "key. statement" label per option, in option order |
| MultiSelectQuiz.KeyMap | pages/5_Level_5_MultiSelect.py:134 | every option's label is a key of the map, and every entry maps a label to the key of an option with that label |
| MultiSelectQuiz.LabelDeterminesKey | pages/5_Level_5_MultiSelect.py:133-134 | keys without a dot are determined by their label |
| MultiSelectQuiz.KeyMapRecoversKey | pages/5_Level_5_MultiSelect.py:134 | with dot-free keys every option's label maps back to that option's key |
| MultiSelectQuiz.FindKey | pages/5_Level_5_MultiSelect.py:139 | a position is found exactly when the key is an option key, and it holds that key |
| MultiSelectQuiz.IndexOf | pages/5_Level_5_MultiSelect.py:142-143 | a position is found exactly when the label is listed, and it is the first such position |
| MultiSelectQuiz.DefaultIndex | pages/5_Level_5_MultiSelect.py:137-143 | the radio has a default exactly when the previous answer is an option key |
| MultiSelectQuiz.DefaultIndexPointsAtPrevious | pages/5_Level_5_MultiSelect.py:138-143 | with dot-free keys the default index is the previous answer's option |
| MultiSelectQuiz.RadioSelection | pages/5_Level_5_MultiSelect.py:146-151 | the radio has a selection exactly when it has a default index |
| MultiSelectQuiz.SelectedKey | pages/5_Level_5_MultiSelect.py:155 | no selection maps to the empty key |
| MultiSelectQuiz.RadioRoundTrip | pages/5_Level_5_MultiSelect.py:133-158 | re-rendering gives back the previous answer when it is an option key, and "" otherwise |
| MultiSelectQuiz.NoSelectionScoresZero | pages/5_Level_5_MultiSelect.py:155 | with nothing selected the single-select question scores 0 |
| MultiSelectQuiz.LevelScore | pages/5_Level_5_MultiSelect.py:176-184 | the level score is at most the distinct correct keys plus one, and reaches it exactly for all correct keys and the right single key |
| MultiSelectQuiz.LevelAnswers | pages/5_Level_5_MultiSelect.py:187-190 | the saved answers hold exactly the submitted key list and the single key |
| MultiSelectQuiz.Submit | pages/5_Level_5_MultiSelect.py:173-194 | the level score is computed, saved with the answers over the loaded file, and the review flag is raised |
| MultiSelectQuiz.ReviewScore | pages/5_Level_5_MultiSelect.py:207-208 | the review shows 0 when nothing is saved for the user and level |
| MultiSelectQuiz.ReviewAfterSubmit | pages/5_Level_5_MultiSelect.py:191-208 | the review reads back exactly the score and answers just saved |
| MultiSelectQuiz.HomeTickIffPerfect | pages/5_Level_5_MultiSelect.py:176-191 | with four correct keys the home page ticks this level exactly for a perfect submission |
| OpenEndedQuiz.PageQuestions | pages/1_level_1_Quiz.py:57-66 | the page runs exactly when the catalog has a non-empty entry for the level, with those questions |
| OpenEndedQuiz.GetLlmHelp | pages/1_level_1_Quiz.py:75-123 | a missing key gives the help's key message; an unknown provider gives None; an exception gives the error string; errors start with the failure mark |
| OpenEndedQuiz.ApiErrorIsNotKeyError | pages/1_level_1_Quiz.py:77-123 | an exception's error string is never the help's key message |
| OpenEndedQuiz.ConfiguredKeyNeverGetsKeyError | pages/1_level_1_Quiz.py:75-123 | with a key configured the key message only appears if the provider wrote it |
| OpenEndedQuiz.AskForHelp | pages/1_level_1_Quiz.py:179-186 | without a key nothing is recorded; with one the helper's reply becomes the question's latest help |
| OpenEndedQuiz.ReviewAnswer | pages/1_level_1_Quiz.py:223 | the review shows the stored answer, or "No Answer Provided." when there is none |
| OpenEndedQuiz.RenderQuestions | pages/1_level_1_Quiz.py:163-174 | one pass of the question loop writes each text area's content back for its question, leaves every other entry alone, and afterwards the review reads each question's answer back instead of the fallback |
| OpenEndedQuiz.Finalize | pages/1_level_1_Quiz.py:201-210 | the review flag is raised and the number of questions is saved with the answers in progress |
| OpenEndedQuiz.LevelMaxScore | app.py:114-119 | "Level 1: Fundamentals" is worth 2 points on the home page |
| OpenEndedQuiz.HomeStatusAfterFinalize | pages/1_level_1_Quiz.py:205-210 | after finalizing, the home page ticks the level exactly when it has two questions, whatever was answered |

## Left out

- Streamlit rendering (headers, columns, buttons, spinners, `st.rerun`, `st.stop`, page switching) is not modelled; only the state it reads and writes.
- The provider SDKs are not modelled: what each returned (an exception, a stream, a text) is a parameter, and the system prompt and help prompt texts are not modelled.
- Reading and writing the JSON files is abstract: the file is `Missing`, `Undecodable` or `Decoded` with typed content; JSON of another shape (a record without `score_value`, a list at the top) is not representable.
- Reading a score or catalog file fails soft only for a missing file or invalid JSON; any other read error (no permission, a directory, a file that is not valid text) propagates out of the page, and the model has no such file state.
- A choice question's options are a sequence, which may repeat a key although a JSON object cannot; the radio lemmas do not rely on distinct keys, so they also hold for the options a JSON object can give.
- `datetime.now()` is the `now` parameter; its format is not modelled.
- Two sessions saving at the same time can lose an update (load, then write); concurrency is not modelled, only serialized saves (`ScoreStore.PutCommutes`).
- Sampling parameters are floats in the application; the model keeps them as exact values and never computes with them.
- `st.secrets` is a flat map keyed by the secret path string; the lookup of dotted paths inside TOML tables is not modelled.
- Chat.ChatSession.Ask: the home page picks the reply handling by provider name; the model picks it by the shape of the reply, which each provider's SDK fixes, so a provider returning an unexpected shape is not modelled.
- Chat.GetLlmResponse: a Gemini response whose `text` is `None` is not modelled; the text is a string.
- MultiSelectQuiz.RadioRoundTrip: proved only for option keys without a dot, which is what the level's keys "A" to "D" are; with dotted keys two labels can coincide.
- The multi-select widget's default (a previous key list that is no longer among the options makes Streamlit raise) is not modelled.
- `load_quiz_data`'s error messages are not modelled; its fail-soft result is `Files.Load`, and the page stopping is `OpenEndedQuiz.PageQuestions`.
- The username check and the logout button's clearing of the username are not modelled beyond `Chat.ChatSession.Clear`.
