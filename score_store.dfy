/**
 * The on-disk JSON files, read through a fail-soft loader: a missing file or
 * one that is not valid JSON reads as an empty mapping.
 */
module Files {

  /** What opening and `json.load`-ing a file yields. */
  datatype JsonFile<T> = Missing | Undecodable | Decoded(content: T)

  /**
   * `load_scores` (and `load_quiz_data`, minus its error banner): the parsed
   * content, or `{}` when the file is missing or is not valid JSON.
   */
  function Load<K, V>(f: JsonFile<map<K, V>>): (m: map<K, V>)
    ensures f.Decoded? ==> m == f.content
    ensures !f.Decoded? ==> m == map[]
  {
    match f
    case Decoded(content) => content
    case _ => map[]
  }
}

/**
 * The score store: `user -> level -> {score_value, date, answers}`, with at
 * most one record per (user, level); a save overwrites that one record.
 */
module ScoreStore {
  import opened Wrappers
  import opened Files

  /** A submitted answer: free text, a single option key (as text), or a list of option keys. */
  datatype Answer = Text(text: string) | Keys(keys: seq<string>)

  /** Answers of one level, by question id. */
  type Answers = map<string, Answer>

  datatype ScoreRecord = ScoreRecord(scoreValue: int, date: string, answers: Answers)

  type Scores = map<string, map<string, ScoreRecord>>

  /** `scores.get(user, {}).get(level)`. */
  function Lookup(s: Scores, user: string, level: string): (r: Option<ScoreRecord>)
    ensures r.Some? <==> user in s && level in s[user]
    ensures r.Some? ==> r.value == s[user][level]
  {
    if user in s && level in s[user] then Some(s[user][level]) else None
  }

  /**
   * The read-modify-write of `save_score` on an already loaded store: create
   * the user's entry if absent, then set `[user][level]` to `record`.
   */
  function Put(s: Scores, user: string, level: string, record: ScoreRecord): (r: Scores)
    ensures Lookup(r, user, level) == Some(record)
    ensures r.Keys == s.Keys + {user}
    ensures r[user].Keys == (if user in s then s[user].Keys else {}) + {level}
    ensures forall u, l :: (u != user || l != level) ==> Lookup(r, u, l) == Lookup(s, u, l)
  {
    var levels := if user in s then s[user] else map[];
    s[user := levels[level := record]]
  }

  /** Two stores with the same users and the same lookups are the same store. */
  lemma SameLookups(a: Scores, b: Scores)
    requires a.Keys == b.Keys
    requires forall u, l :: Lookup(a, u, l) == Lookup(b, u, l)
    ensures a == b
  {
    forall u | u in a ensures a[u] == b[u] {
      forall l | l in a[u] || l in b[u] ensures l in a[u] && l in b[u] && a[u][l] == b[u][l] {
        assert Lookup(a, u, l) == Lookup(b, u, l);
      }
    }
  }

  /** Saving twice for the same (user, level) keeps only the second record. */
  lemma PutOverwrites(s: Scores, user: string, level: string, first: ScoreRecord, second: ScoreRecord)
    ensures Put(Put(s, user, level, first), user, level, second) == Put(s, user, level, second)
  {
    SameLookups(Put(Put(s, user, level, first), user, level, second), Put(s, user, level, second));
  }

  /**
   * Two saves for different (user, level) pairs, one after the other, keep
   * both records whichever runs first: serialized saves lose no update.
   */
  lemma PutCommutes(s: Scores, u1: string, l1: string, r1: ScoreRecord, u2: string, l2: string, r2: ScoreRecord)
    requires u1 != u2 || l1 != l2
    ensures Put(Put(s, u1, l1, r1), u2, l2, r2) == Put(Put(s, u2, l2, r2), u1, l1, r1)
    ensures Lookup(Put(Put(s, u1, l1, r1), u2, l2, r2), u1, l1) == Some(r1)
    ensures Lookup(Put(Put(s, u1, l1, r1), u2, l2, r2), u2, l2) == Some(r2)
  {
    SameLookups(Put(Put(s, u1, l1, r1), u2, l2, r2), Put(Put(s, u2, l2, r2), u1, l1, r1));
  }

  /** The score file, held as an abstract value that loads and saves go through. */
  class Store {
    var file: JsonFile<Scores>

    constructor (file: JsonFile<Scores>)
      ensures this.file == file
    {
      this.file := file;
    }

    /** `load_scores()`: fails soft to an empty store. */
    method LoadScores() returns (scores: Scores)
      ensures file.Decoded? ==> scores == file.content
      ensures file.Missing? || file.Undecodable? ==> scores == map[]
      ensures scores == Load(file)
    {
      if file.Decoded? {
        scores := file.content;
      } else {
        scores := map[];
      }
    }

    /**
     * `save_score(username, level, score, answer_data)` with the timestamp
     * `now`: load, insert or overwrite one record in place, write the whole
     * store back.
     */
    method SaveScore(username: string, level: string, score: int, answers: Answers, now: string)
      modifies this
      ensures file == Decoded(Put(Load(old(file)), username, level, ScoreRecord(score, now, answers)))
      ensures Lookup(file.content, username, level) == Some(ScoreRecord(score, now, answers))
      ensures forall u, l :: (u != username || l != level) ==>
                Lookup(file.content, u, l) == Lookup(Load(old(file)), u, l)
    {
      var allScores := LoadScores();
      ghost var loaded := allScores;
      assert loaded == Load(file);
      if username !in allScores {
        allScores := allScores[username := map[]];
      }
      assert allScores[username] == if username in loaded then loaded[username] else map[];
      allScores := allScores[username := allScores[username][level := ScoreRecord(score, now, answers)]];
      assert allScores == Put(loaded, username, level, ScoreRecord(score, now, answers));
      file := Decoded(allScores);
    }
  }
}
