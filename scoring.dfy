/**
 * The scoring rules of the quiz levels: partial credit for a multi-select
 * question, all-or-nothing for a single-select question, and attempt credit
 * for an open-ended level.
 */
module Scoring {

  /** Python's `set(xs)`. */
  function ToSet<T>(xs: seq<T>): set<T> {
    set x | x in xs
  }

  /** A list has at least as many entries as it has distinct ones. */
  lemma {:induction false} ToSetSize<T>(xs: seq<T>)
    ensures |ToSet(xs)| <= |xs|
    decreases |xs|
  {
    if xs != [] {
      var init := xs[..|xs| - 1];
      ToSetSize(init);
      assert xs == init + [xs[|xs| - 1]];
      assert ToSet(xs) == ToSet(init) + {xs[|xs| - 1]};
    }
  }

  /** `len(set(a) & set(b)) == len(set(b))` exactly when every entry of `b` is in `a`. */
  lemma IntersectionFull<T>(a: set<T>, b: set<T>)
    ensures |a * b| <= |b|
    ensures |a * b| == |b| <==> b <= a
  {
    assert b == (a * b) + (b - a);
    assert (a * b) * (b - a) == {};
    assert |b| == |a * b| + |b - a|;
    if |a * b| == |b| {
      assert |b - a| == 0;
      assert b - a == {};
    }
  }

  /**
   * Multi-select partial credit: the number of distinct correct keys that were
   * selected. Duplicate picks count once; wrong picks cost nothing.
   */
  function MultiSelectScore(selected: seq<string>, correct: seq<string>): (r: nat)
    ensures r <= |ToSet(correct)| && r <= |ToSet(selected)|
    ensures r == |ToSet(correct)| <==> ToSet(correct) <= ToSet(selected)
  {
    IntersectionFull(ToSet(selected), ToSet(correct));
    IntersectionFull(ToSet(correct), ToSet(selected));
    assert ToSet(correct) * ToSet(selected) == ToSet(selected) * ToSet(correct);
    |ToSet(selected) * ToSet(correct)|
  }

  /** The multi-select score never exceeds the number of keys the user picked. */
  lemma MultiSelectAtMostPicks(selected: seq<string>, correct: seq<string>)
    ensures MultiSelectScore(selected, correct) <= |selected|
  {
    ToSetSize(selected);
  }

  /** Picking an already picked key again changes nothing. */
  lemma RepeatedPickCountsOnce(selected: seq<string>, correct: seq<string>, x: string)
    requires x in selected
    ensures MultiSelectScore(selected + [x], correct) == MultiSelectScore(selected, correct)
  {
    assert ToSet(selected + [x]) == ToSet(selected);
  }

  /** Picking a wrong key is not penalised. */
  lemma WrongPickCostsNothing(selected: seq<string>, correct: seq<string>, x: string)
    requires x !in correct
    ensures MultiSelectScore(selected + [x], correct) == MultiSelectScore(selected, correct)
  {
    assert ToSet(selected + [x]) * ToSet(correct) == ToSet(selected) * ToSet(correct);
  }

  /** Picking a correct key not yet picked earns exactly one point. */
  lemma NewCorrectPickEarnsOne(selected: seq<string>, correct: seq<string>, x: string)
    requires x in correct && x !in selected
    ensures MultiSelectScore(selected + [x], correct) == MultiSelectScore(selected, correct) + 1
  {
    var before := ToSet(selected) * ToSet(correct);
    assert ToSet(selected + [x]) * ToSet(correct) == before + {x};
    assert x !in before;
  }

  /** Picking more keys never lowers the score. */
  lemma MultiSelectMonotone(selected: seq<string>, more: seq<string>, correct: seq<string>)
    requires ToSet(selected) <= ToSet(more)
    ensures MultiSelectScore(selected, correct) <= MultiSelectScore(more, correct)
  {
    var small := ToSet(selected) * ToSet(correct);
    var large := ToSet(more) * ToSet(correct);
    IntersectionFull(small, large);
    assert small * large == small;
  }

  /** Single-select: one point exactly when the chosen key is the correct key. */
  function SingleSelectScore(selected: string, correct: string): (r: nat)
    ensures r <= 1
    ensures r == 1 <==> selected == correct
  {
    if selected == correct then 1 else 0
  }

  /** The worked examples of the scoring rules. */
  lemma ScoringExamples()
    ensures MultiSelectScore(["A", "C"], ["A", "B", "D"]) == 1
    ensures MultiSelectScore(["A", "B", "D"], ["A", "B", "D"]) == 3
    ensures MultiSelectScore([], ["A", "B", "D"]) == 0
    ensures SingleSelectScore("B", "B") == 1
    ensures SingleSelectScore("C", "B") == 0
    ensures SingleSelectScore("", "B") == 0
  {
    assert ToSet(["A", "C"]) * ToSet(["A", "B", "D"]) == {"A"};
    assert ToSet(["A", "B", "D"]) == {"A", "B", "D"};
    assert ToSet<string>([]) == {};
  }

  /** Open-ended levels: attempt credit, one point per question of the level, whatever was answered. */
  function AttemptScore<Q, A>(questions: map<string, Q>, answers: map<string, A>): (r: nat)
    ensures r == |questions.Keys|
  {
    |questions|
  }

  /** The attempt score does not depend on the answers at all. */
  lemma AttemptScoreIgnoresAnswers<Q, A>(questions: map<string, Q>, a1: map<string, A>, a2: map<string, A>)
    ensures AttemptScore(questions, a1) == AttemptScore(questions, a2)
  {
  }
}
