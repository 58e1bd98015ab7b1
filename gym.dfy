/**
 * The memory gym: a registry of every learned word by id, a quiz deck of at
 * most five words drawn from it in random order, and the quiz state machine
 * menu -> quiz (card index, flipped flag, score) -> menu. Each answer is
 * reported to the mastery tracker.
 *
 * An answer on a card that is not the last one advances the card 500 ms later;
 * that timer is the step `AdvanceTimerFires`, and `pendingAdvances` counts the
 * timers set and not yet fired.
 */
module MemoryGym {
  import opened Types
  import opened Registry
  import Audio

  const DeckSize := 5

  datatype GymMode = Menu | Quiz

  /** What the gym reports to the mastery tracker for one answer. */
  datatype Report = Report(wordId: string, success: bool)

  /** `allWords`: scan the stories' learned words in order and keep each id's first word. */
  method AllWords(stories: seq<Story>) returns (words: seq<LearnedWord>)
    ensures words == RegistryById(stories)
  {
    words := [];
    var seen: set<string> := {};
    ghost var scanned: seq<LearnedWord> := [];
    for si := 0 to |stories|
      invariant scanned == StoryWords(stories[..si])
      invariant words == Dedup(scanned, IdKey, {})
      invariant seen == KeySet(scanned, IdKey)
    {
      var story := stories[si];
      if story.learnedWords.Some? {
        var ws := story.learnedWords.value;
        for wi := 0 to |ws|
          invariant scanned == StoryWords(stories[..si]) + ws[..wi]
          invariant words == Dedup(scanned, IdKey, {})
          invariant seen == KeySet(scanned, IdKey)
        {
          var w := ws[wi];
          DedupAppend(scanned, w, IdKey, {});
          KeySetAppend(scanned, w, IdKey);
          if w.id !in seen {
            words := words + [w];
            seen := seen + {w.id};
          }
          scanned := scanned + [w];
          assert ws[..wi + 1] == ws[..wi] + [w];
        }
        assert ws[..|ws|] == ws;
      }
      assert stories[..si + 1] == stories[..si] + [story];
      StoryWordsAppend(stories[..si], story);
    }
    assert stories[..|stories|] == stories;
  }

  /** `perm` lists the positions `0..n-1`, each once: the order a shuffle leaves `n` words in. */
  predicate IsPermutation(perm: seq<int>, n: nat) {
    && |perm| == n
    && (forall i :: 0 <= i < n ==> 0 <= perm[i] < n)
    && (forall i, j :: 0 <= i < j < n ==> perm[i] != perm[j])
  }

  /** The deck: the first five words of the shuffled registry. */
  function Draw(allWords: seq<LearnedWord>, perm: seq<int>): seq<LearnedWord>
    requires IsPermutation(perm, |allWords|)
  {
    seq(Min(DeckSize, |allWords|), i requires 0 <= i < Min(DeckSize, |allWords|) => allWords[perm[i]])
  }

  /**
   * The deck holds min(5, |registry|) registry words with pairwise distinct ids:
   * a sample drawn without replacement.
   */
  lemma DrawIsSample(allWords: seq<LearnedWord>, perm: seq<int>)
    requires IsPermutation(perm, |allWords|)
    requires DistinctKeys(allWords, IdKey)
    ensures |Draw(allWords, perm)| == Min(DeckSize, |allWords|)
    ensures forall w :: w in Draw(allWords, perm) ==> w in allWords
    ensures DistinctKeys(Draw(allWords, perm), IdKey)
  {
    var deck := Draw(allWords, perm);
    forall i, j | 0 <= i < j < |deck| ensures deck[i].id != deck[j].id {
      assert perm[i] != perm[j];
    }
  }

  class Gym {
    var mode: GymMode
    var deck: seq<LearnedWord>
    var currentCardIndex: int
    var isFlipped: bool
    var sessionScore: int
    /** Advance timers set by answers and not yet fired. */
    var pendingAdvances: nat
    /** Answers accepted in the current session. */
    ghost var answers: nat
    const audio: Audio.AudioManager

    /**
     * The session invariant: the score never exceeds the answers, which never
     * exceed the deck; in a quiz the card index is on the deck, each card is
     * answered at most once and an advance is pending only after an answer on
     * a card that is not the last.
     */
    ghost predicate Valid()
      reads this, audio.Footprint()
    {
      && audio.Valid()
      && 0 <= sessionScore <= answers <= |deck| <= DeckSize
      && (mode == Menu ==> pendingAdvances == 0)
      && (mode == Quiz ==>
            && 0 <= currentCardIndex < |deck|
            && pendingAdvances <= 1
            && answers == currentCardIndex + pendingAdvances
            && (pendingAdvances == 1 ==> isFlipped && currentCardIndex + 1 < |deck|))
    }

    constructor (audio: Audio.AudioManager)
      requires audio.Valid()
      ensures Valid() && this.audio == audio
      ensures mode == Menu && deck == [] && currentCardIndex == 0 && !isFlipped && sessionScore == 0
    {
      this.audio := audio;
      mode := Menu;
      deck := [];
      currentCardIndex := 0;
      isFlipped := false;
      sessionScore := 0;
      pendingAdvances := 0;
      answers := 0;
    }

    /**
     * `startSession`, offered only while the registry is non-empty. The random
     * shuffle is the parameter `perm`, some permutation of the registry.
     */
    method StartSession(allWords: seq<LearnedWord>, perm: seq<int>)
      requires Valid() && mode == Menu
      requires |allWords| > 0 && IsPermutation(perm, |allWords|)
      modifies this
      ensures Valid()
      ensures deck == Draw(allWords, perm)
      ensures mode == Quiz && currentCardIndex == 0 && !isFlipped && sessionScore == 0
    {
      deck := Draw(allWords, perm);
      currentCardIndex := 0;
      isFlipped := false;
      sessionScore := 0;
      mode := Quiz;
      answers := 0;
    }

    /**
     * `handleFlip`: the card only takes a tap while face down; turning it over
     * reads the card's word aloud.
     */
    method HandleFlip() returns (revealed: bool)
      requires Valid() && mode == Quiz
      modifies this`isFlipped, audio, audio.sources, audio.synthesis
      ensures Valid()
      ensures revealed == !old(isFlipped)
      ensures isFlipped
      ensures mode == old(mode) && deck == old(deck) && currentCardIndex == old(currentCardIndex)
      ensures sessionScore == old(sessionScore) && pendingAdvances == old(pendingAdvances)
      ensures !revealed ==> unchanged(audio) && unchanged(audio.sources) && (audio.synthesis == null || unchanged(audio.synthesis))
      ensures revealed && audio.synthesis != null ==>
        |audio.synthesis.queue| == 1 && audio.synthesis.queue[0].text == deck[currentCardIndex].word
      ensures revealed ==> audio.currentSource == null
    {
      if isFlipped {
        return false;
      }
      isFlipped := true;
      audio.PlayTTS(deck[currentCardIndex].word);
      revealed := true;
    }

    /**
     * `handleResponse`, with answers ignored while the card's advance is
     * pending: report the card's id and the outcome once, count a success,
     * then either set the advance timer or, on the last card, return to the menu.
     */
    method HandleResponse(success: bool) returns (report: Option<Report>)
      requires Valid() && mode == Quiz && isFlipped
      modifies this`sessionScore, this`pendingAdvances, this`mode, this`answers
      ensures Valid()
      ensures old(pendingAdvances) > 0 ==> report == None && unchanged(this)
      ensures old(pendingAdvances) == 0 ==>
        && report == Some(Report(deck[currentCardIndex].id, success))
        && sessionScore == old(sessionScore) + (if success then 1 else 0)
        && answers == old(answers) + 1
        && (if currentCardIndex < |deck| - 1 then mode == Quiz && pendingAdvances == 1 else mode == Menu)
    {
      if pendingAdvances > 0 {
        return None;
      }
      report := Some(Report(deck[currentCardIndex].id, success));
      answers := answers + 1;
      if success {
        sessionScore := sessionScore + 1;
      }
      if currentCardIndex < |deck| - 1 {
        pendingAdvances := pendingAdvances + 1;
      } else {
        mode := Menu;
      }
    }

    /** `handleResponse` as the source has it: every tap is an answer, even during the 500 ms delay. */
    method HandleResponseAsWritten(success: bool) returns (report: Report)
      requires mode == Quiz && isFlipped && 0 <= currentCardIndex < |deck|
      modifies this`sessionScore, this`pendingAdvances, this`mode
      ensures report == Report(deck[currentCardIndex].id, success)
      ensures sessionScore == old(sessionScore) + (if success then 1 else 0)
      ensures if currentCardIndex < |deck| - 1
              then mode == Quiz && pendingAdvances == old(pendingAdvances) + 1
              else mode == Menu && pendingAdvances == old(pendingAdvances)
    {
      report := Report(deck[currentCardIndex].id, success);
      if success {
        sessionScore := sessionScore + 1;
      }
      if currentCardIndex < |deck| - 1 {
        pendingAdvances := pendingAdvances + 1;
      } else {
        mode := Menu;
      }
    }

    /** The 500 ms timer: turn the card face down and move to the next one. */
    method AdvanceTimerFires()
      requires pendingAdvances > 0
      modifies this`isFlipped, this`currentCardIndex, this`pendingAdvances
      ensures !isFlipped && currentCardIndex == old(currentCardIndex) + 1
      ensures pendingAdvances == old(pendingAdvances) - 1
      ensures old(Valid()) ==> Valid()
    {
      isFlipped := false;
      currentCardIndex := currentCardIndex + 1;
      pendingAdvances := pendingAdvances - 1;
    }
  }

  /**
   * Three taps on "I knew it" within the 500 ms delay on the first card of a
   * two-word deck: the score reaches 3 on a deck of 2, and once the second
   * timer fires the card index equals the deck size, so the quiz screen
   * renders a card that does not exist.
   */
  method TripleTapCounterexample(audio: Audio.AudioManager, w1: LearnedWord, w2: LearnedWord)
    returns (score: int, deckSize: int, index: int)
    requires audio.Valid()
    modifies audio, audio.sources, audio.synthesis
    ensures score == 3 && deckSize == 2 && index == 2
    ensures score > deckSize && index >= deckSize
  {
    var gym := new Gym(audio);
    gym.StartSession([w1, w2], [0, 1]);
    var revealed := gym.HandleFlip();
    var r1 := gym.HandleResponseAsWritten(true);
    var r2 := gym.HandleResponseAsWritten(true);
    var r3 := gym.HandleResponseAsWritten(true);
    gym.AdvanceTimerFires();
    gym.AdvanceTimerFires();
    score, deckSize, index := gym.sessionScore, |gym.deck|, gym.currentCardIndex;
  }
}
