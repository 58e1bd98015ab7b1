/**
 * The mastery tracker: a map from word id to a level in 0..5 and the time of
 * the last review. A quiz answer raises the level by one (capped at 5) on
 * success, leaves it on failure, and always stamps the review time. The gym's
 * mastery grid shows the level as five stars.
 */
module Mastery {
  import opened Types

  const MaxLevel := 5

  datatype MasteryEntry = MasteryEntry(level: int, lastReviewed: int)

  type WordMastery = map<string, MasteryEntry>

  /** The level of a word; a word without an entry is at level 0. */
  function LevelOf(m: WordMastery, wordId: string): int {
    if wordId in m then m[wordId].level else 0
  }

  /** Every recorded level lies in 0..5. */
  ghost predicate Bounded(m: WordMastery) {
    forall k :: k in m ==> 0 <= m[k].level <= MaxLevel
  }

  /**
   * The update the app applies for one quiz answer on `wordId` at time `now`.
   * A missing entry starts from level 0 and review time 0.
   */
  function Update(prev: WordMastery, wordId: string, success: bool, now: int): (next: WordMastery)
    ensures wordId in next && next[wordId].lastReviewed == now
    ensures success ==> next[wordId].level == if LevelOf(prev, wordId) + 1 < MaxLevel then LevelOf(prev, wordId) + 1 else MaxLevel
    ensures !success ==> next[wordId].level == LevelOf(prev, wordId)
    ensures next.Keys == prev.Keys + {wordId}
    ensures forall k :: k in prev && k != wordId ==> next[k] == prev[k]
  {
    var current := if wordId in prev then prev[wordId] else MasteryEntry(0, 0);
    var newLevel := if success then Min(MaxLevel, current.level + 1) else current.level;
    prev[wordId := MasteryEntry(newLevel, now)]
  }

  /** One update keeps every level in 0..5 and never lowers a level. */
  lemma UpdateKeepsBoundsAndMonotone(prev: WordMastery, wordId: string, success: bool, now: int)
    requires Bounded(prev)
    ensures Bounded(Update(prev, wordId, success, now))
    ensures forall k :: k in prev ==> Update(prev, wordId, success, now)[k].level >= prev[k].level
    ensures LevelOf(Update(prev, wordId, success, now), wordId) <= LevelOf(prev, wordId) + 1
  {
  }

  /** A quiz answer, as the gym reports it to the tracker. */
  datatype Answer = Answer(wordId: string, success: bool, now: int)

  /** The tracker after a sequence of answers, applied in order. */
  function ApplyAll(m: WordMastery, answers: seq<Answer>): WordMastery
  {
    if answers == [] then m
    else
      var a := answers[|answers| - 1];
      Update(ApplyAll(m, answers[..|answers| - 1]), a.wordId, a.success, a.now)
  }

  /**
   * Starting from a bounded tracker (in particular from the empty one the app
   * starts with), any sequence of answers keeps all levels in 0..5, never lowers
   * a level and never forgets a word.
   */
  lemma {:induction false} ApplyAllBoundedMonotone(m: WordMastery, answers: seq<Answer>)
    requires Bounded(m)
    ensures Bounded(ApplyAll(m, answers))
    ensures m.Keys <= ApplyAll(m, answers).Keys
    ensures forall k :: k in m ==> ApplyAll(m, answers)[k].level >= m[k].level
  {
    if answers != [] {
      var init := answers[..|answers| - 1];
      var a := answers[|answers| - 1];
      ApplyAllBoundedMonotone(m, init);
      UpdateKeepsBoundsAndMonotone(ApplyAll(m, init), a.wordId, a.success, a.now);
    }
  }

  /** The number of successful answers about `wordId`. */
  function Successes(answers: seq<Answer>, wordId: string): nat {
    if answers == [] then 0
    else
      var a := answers[|answers| - 1];
      Successes(answers[..|answers| - 1], wordId) + (if a.wordId == wordId && a.success then 1 else 0)
  }

  /**
   * From the empty tracker, a word's level is its number of successful answers,
   * capped at 5: failures never change it.
   */
  lemma {:induction false} LevelCountsSuccesses(answers: seq<Answer>, wordId: string)
    ensures LevelOf(ApplyAll(map[], answers), wordId) == Min(MaxLevel, Successes(answers, wordId))
  {
    if answers != [] {
      LevelCountsSuccesses(answers[..|answers| - 1], wordId);
    }
  }

  /** The grid shows `mastery[id]?.level || 0`, which is `LevelOf`: always a level in 0..5. */
  lemma DisplayLevelBounded(m: WordMastery, wordId: string)
    requires Bounded(m)
    ensures 0 <= LevelOf(m, wordId) <= MaxLevel
  {
  }

  /** Star `k` (1..5) of the grid is filled when `k` is at most the level. */
  predicate StarFilled(star: int, level: int) {
    star <= level
  }

  /** The number of filled stars among stars `1..n`. */
  function FilledStars(n: nat, level: int): nat {
    if n == 0 then 0 else FilledStars(n - 1, level) + (if StarFilled(n, level) then 1 else 0)
  }

  /** For a level in 0..5 the grid fills exactly `level` of its five stars, the first ones. */
  lemma {:induction false} StarsShowLevel(level: int)
    requires 0 <= level <= MaxLevel
    ensures FilledStars(MaxLevel, level) == level
  {
    FilledStarsBelow(MaxLevel, level);
  }

  lemma {:induction false} FilledStarsBelow(n: nat, level: int)
    requires 0 <= level
    ensures FilledStars(n, level) == Min(n, level)
  {
    if n > 0 {
      FilledStarsBelow(n - 1, level);
    }
  }
}
