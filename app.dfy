/**
 * The app shell: which screen shows, the view transitions, the quest's
 * hand-over to story generation, the story list, the per-word mastery
 * tracker, and the background illustration of a new story's pages.
 *
 * The shell's state is the class `App`. Every view change stops all audio
 * (the effect on `currentView` and `hasStarted`). The asynchronous story
 * request is split into `SelectStoryMode`, which captures the values the
 * request closes over, and `FinishStoryGeneration`, which receives the
 * service's answer. The illustration requests' answers are parameters of
 * `GenerateRemainingImages`.
 */
module App {
  import opened Types
  import Mastery
  import Audio

  datatype AppView =
    | Home | ThemeSelection | CameraQuest | VocabReview | KidProfileView | StoryModeSelect
    | StorySetup | StoryReader | StoryQuiz | Calendar | Passport | WordMemory | VocabList

  /** What the shell renders. `Blank` is a view whose required data is missing. */
  datatype Screen =
    | StartScreen | ProfileSelector | ThemePicker | QuestScreen | ModeSelection | Painting
    | Reader | QuizScreen | PassportScreen | VocabularyScreen | MemoryGymScreen | Library | Blank

  /** The navigation bar's buttons. */
  datatype NavButton = NavHome | NavCalendar | NavPassport | NavMemory | NavVocab

  function NavTarget(b: NavButton): AppView {
    match b
    case NavHome => Home
    case NavCalendar => Calendar
    case NavPassport => Passport
    case NavMemory => WordMemory
    case NavVocab => VocabList
  }

  /** The values a story request closes over when the child picks a story mode. */
  datatype StoryRequest = StoryRequest(theme: Theme, profile: KidProfile, words: seq<LearnedWord>, userPrompt: Option<string>)

  /** The story service either answers with a title and pages or throws. */
  datatype StoryOutcome = Generated(title: string, pages: seq<Page>) | GenerationFailed

  /** One illustration request: an image URL (possibly empty), no URL, or a thrown request. */
  datatype Illustration = Illustrated(url: string) | NoIllustration | IllustrationFailed

  /** The URL an illustration request yields when its answer is truthy. */
  function IllustrationUrl(o: Illustration): (r: Option<string>)
    ensures r.Some? <==> o.Illustrated? && o.url != ""
    ensures r.Some? ==> r.value == o.url
  {
    if o.Illustrated? && o.url != "" then Some(o.url) else None
  }

  /** The story list with the pages of every story with this id replaced. */
  function WithPages(stories: seq<Story>, id: string, pages: seq<Page>): (r: seq<Story>)
    ensures |r| == |stories|
    ensures forall i :: 0 <= i < |r| ==> r[i].id == stories[i].id
    ensures forall i :: 0 <= i < |r| && stories[i].id != id ==> r[i] == stories[i]
    ensures forall i :: 0 <= i < |r| && stories[i].id == id ==> r[i].pages == pages
  {
    seq(|stories|, i requires 0 <= i < |stories| => if stories[i].id == id then stories[i].(pages := pages) else stories[i])
  }

  /** Replacing the pages twice with the same list is replacing them once. */
  lemma WithPagesIdempotent(stories: seq<Story>, id: string, pages: seq<Page>)
    ensures WithPages(WithPages(stories, id, pages), id, pages) == WithPages(stories, id, pages)
  {
  }

  /** The story list with every story carrying `updated`'s id replaced by `updated`. */
  function ReplaceById(stories: seq<Story>, updated: Story): (r: seq<Story>)
    ensures |r| == |stories|
    ensures forall i :: 0 <= i < |r| ==> r[i].id == stories[i].id
    ensures forall i :: 0 <= i < |r| && stories[i].id != updated.id ==> r[i] == stories[i]
    ensures forall i :: 0 <= i < |r| && stories[i].id == updated.id ==> r[i] == updated
  {
    seq(|stories|, i requires 0 <= i < |stories| => if stories[i].id == updated.id then updated else stories[i])
  }

  /** The story a word is added to: the word joins its learned words, and its text the words used. */
  function WithWord(story: Story, newWord: LearnedWord): (r: Story)
    ensures r.learnedWords == Some(story.learnedWords.GetOr([]) + [newWord])
    ensures r.wordsUsed == story.wordsUsed + [newWord.word]
    ensures r.id == story.id && r.title == story.title && r.pages == story.pages
  {
    story.(learnedWords := Some(story.learnedWords.GetOr([]) + [newWord]), wordsUsed := story.wordsUsed + [newWord.word])
  }

  /** The story built from the service's answer: its words used are the learned words' texts, in order. */
  function NewStory(request: StoryRequest, title: string, pages: seq<Page>, id: string, date: string): (s: Story)
    ensures s.wordsUsed == Words(request.words) && s.learnedWords == Some(request.words)
    ensures |s.wordsUsed| == |request.words|
    ensures s.themeId == request.theme.id && s.id == id && s.pages == pages
  {
    Story(id, title, request.theme.id, date, pages, Words(request.words), Some(request.words))
  }

  class App {
    var hasStarted: bool
    var currentView: AppView
    var kidProfile: Option<KidProfile>
    var selectedTheme: Option<Theme>
    var targetItemCount: int
    var learnedWords: seq<LearnedWord>
    var currentStory: Option<Story>
    var stories: seq<Story>
    var wordMastery: Mastery.WordMastery
    const audio: Audio.AudioManager

    /** Audio is consistent and every mastery level lies in 0..5. */
    ghost predicate Valid()
      reads this, audio.Footprint()
    {
      audio.Valid() && Mastery.Bounded(wordMastery)
    }

    constructor (audio: Audio.AudioManager)
      requires audio.Valid()
      ensures Valid() && this.audio == audio
      ensures !hasStarted && currentView == Home && kidProfile == None && selectedTheme == None
      ensures targetItemCount == 3 && learnedWords == [] && currentStory == None && stories == [] && wordMastery == map[]
    {
      this.audio := audio;
      hasStarted := false;
      currentView := Home;
      kidProfile := None;
      selectedTheme := None;
      targetItemCount := 3;
      learnedWords := [];
      currentStory := None;
      stories := [];
      wordMastery := map[];
    }

    /** The screen the shell renders for the current state. */
    function CurrentScreen(): Screen
      reads this
    {
      if !hasStarted then StartScreen
      else if kidProfile.None? then ProfileSelector
      else match currentView
        case CameraQuest => if selectedTheme.Some? then QuestScreen else Blank
        case StoryModeSelect => if selectedTheme.Some? then ModeSelection else Blank
        case StorySetup => Painting
        case StoryReader => if currentStory.Some? then Reader else Blank
        case StoryQuiz => if currentStory.Some? && currentStory.value.learnedWords.Some? then QuizScreen else Blank
        case Passport => PassportScreen
        case VocabList => VocabularyScreen
        case WordMemory => MemoryGymScreen
        case Calendar => Library
        case _ => ThemePicker
    }

    /** Where the back button leads, when there is one. */
    function BackTarget(): (r: Option<AppView>)
      reads this
      ensures r.Some? <==> hasStarted && kidProfile.Some? && currentView != Home
      ensures r.Some? ==> r.value == Home
    {
      if hasStarted && kidProfile.Some? && currentView != Home then Some(Home) else None
    }

    /** No source holds the playback slot and the synthesizer is silent. */
    predicate AudioSilent()
      reads audio, audio.synthesis
    {
      audio.currentSource == null && (audio.synthesis != null ==> audio.synthesis.queue == [])
    }

    /** Change the view; a change of view stops all audio. */
    method SetView(v: AppView)
      requires Valid()
      modifies this`currentView, audio, audio.sources, audio.synthesis
      ensures Valid() && currentView == v
      ensures v != old(currentView) ==> AudioSilent()
      ensures v == old(currentView) ==> unchanged(audio) && unchanged(audio.sources) && (audio.synthesis == null || unchanged(audio.synthesis))
    {
      if v != currentView {
        audio.StopAll();
      }
      currentView := v;
    }

    /** The start screen's button; starting stops all audio. */
    method Start()
      requires Valid() && CurrentScreen() == StartScreen
      modifies this`hasStarted, audio, audio.sources, audio.synthesis
      ensures Valid() && hasStarted && currentView == old(currentView)
      ensures kidProfile.None? ==> CurrentScreen() == ProfileSelector
      ensures AudioSilent()
    {
      hasStarted := true;
      audio.StopAll();
    }

    method ChooseProfile(profile: KidProfile)
      requires Valid() && CurrentScreen() == ProfileSelector
      modifies this`kidProfile
      ensures Valid() && kidProfile == Some(profile)
      ensures CurrentScreen() != ProfileSelector && CurrentScreen() != StartScreen
    {
      kidProfile := Some(profile);
    }

    /** `handleStartQuest`: remember the theme and the item count and open the camera quest. */
    method StartQuest(theme: Theme, count: int)
      requires Valid() && CurrentScreen() == ThemePicker
      modifies this`selectedTheme, this`targetItemCount, this`currentView, audio, audio.sources, audio.synthesis
      ensures Valid()
      ensures selectedTheme == Some(theme) && targetItemCount == count && currentView == CameraQuest
      ensures CurrentScreen() == QuestScreen && AudioSilent()
    {
      selectedTheme := Some(theme);
      targetItemCount := count;
      SetView(CameraQuest);
    }

    /** `handleQuestComplete`: keep the found words and go on to choosing a story mode. */
    method QuestComplete(words: seq<LearnedWord>)
      requires Valid() && CurrentScreen() == QuestScreen
      modifies this`learnedWords, this`currentView, audio, audio.sources, audio.synthesis
      ensures Valid()
      ensures learnedWords == words && currentView == StoryModeSelect
      ensures CurrentScreen() == ModeSelection && AudioSilent()
    {
      learnedWords := words;
      SetView(StoryModeSelect);
    }

    /**
     * The first half of `handleStoryModeSelect`: without a theme or a profile
     * nothing happens; otherwise show the painting screen and request a story
     * for the current theme, profile and words.
     */
    method SelectStoryMode(userPrompt: Option<string>) returns (request: Option<StoryRequest>)
      requires Valid()
      modifies this`currentView, audio, audio.sources, audio.synthesis
      ensures Valid()
      ensures request.None? <==> old(selectedTheme).None? || old(kidProfile).None?
      ensures request.None? ==>
        && currentView == old(currentView)
        && unchanged(audio) && unchanged(audio.sources) && (audio.synthesis == null || unchanged(audio.synthesis))
      ensures request.Some? ==>
        && request.value == StoryRequest(selectedTheme.value, kidProfile.value, learnedWords, userPrompt)
        && currentView == StorySetup
        && (old(currentView) != StorySetup ==> AudioSilent())
    {
      if selectedTheme.None? || kidProfile.None? {
        return None;
      }
      SetView(StorySetup);
      request := Some(StoryRequest(selectedTheme.value, kidProfile.value, learnedWords, userPrompt));
    }

    /**
     * The second half of `handleStoryModeSelect`: a generated story becomes
     * the current story, is put at the head of the story list and is opened;
     * its page illustrations are then generated in the background (the
     * returned story). A failed request goes back to the story-mode choice.
     */
    method FinishStoryGeneration(request: StoryRequest, outcome: StoryOutcome, id: string, date: string)
      returns (backfill: Option<Story>)
      requires Valid()
      modifies this`currentStory, this`stories, this`currentView, audio, audio.sources, audio.synthesis
      ensures Valid()
      ensures outcome.GenerationFailed? ==>
        backfill == None && currentView == StoryModeSelect && stories == old(stories) && currentStory == old(currentStory)
      ensures outcome.Generated? ==>
        var story := NewStory(request, outcome.title, outcome.pages, id, date);
        && backfill == Some(story) && currentStory == Some(story)
        && stories == [story] + old(stories) && currentView == StoryReader
      ensures currentView != old(currentView) ==> AudioSilent()
    {
      if outcome.GenerationFailed? {
        SetView(StoryModeSelect);
        return None;
      }
      var story := NewStory(request, outcome.title, outcome.pages, id, date);
      currentStory := Some(story);
      stories := [story] + stories;
      SetView(StoryReader);
      backfill := Some(story);
    }

    /**
     * `generateRemainingImages`: for pages 1, 2, ... in order, ask for an
     * illustration (`outcomes[i - 1]` is the answer for page `i`). A truthy URL
     * is written into the page object itself, which the story, the story list
     * and the current story all share; then the current story, whichever it
     * is, gets the page list, and so does every listed story with this id. A
     * failed request skips its page only. Page 0 is never touched.
     */
    method GenerateRemainingImages(story: Story, outcomes: seq<Illustration>)
      requires Valid() && DistinctPages(story.pages)
      requires |outcomes| == if |story.pages| > 0 then |story.pages| - 1 else 0
      modifies this`currentStory, this`stories, set p | p in story.pages
      ensures Valid()
      ensures |story.pages| > 0 ==> story.pages[0].imageUrl == old(story.pages[0].imageUrl)
      ensures forall k :: 1 <= k < |story.pages| ==>
        story.pages[k].imageUrl == if IllustrationUrl(outcomes[k - 1]).Some? then IllustrationUrl(outcomes[k - 1]) else old(story.pages[k].imageUrl)
      ensures AnyIllustrated(outcomes, |outcomes|) ==>
        && currentStory == (if old(currentStory).Some? then Some(old(currentStory).value.(pages := story.pages)) else None)
        && stories == WithPages(old(stories), story.id, story.pages)
      ensures !AnyIllustrated(outcomes, |outcomes|) ==> currentStory == old(currentStory) && stories == old(stories)
    {
      var newPages := story.pages;
      var i := 1;
      while i < |newPages|
        invariant 1 <= i && i - 1 <= |outcomes| && (|newPages| > 0 ==> i <= |newPages|)
        invariant Valid()
        invariant |newPages| > 0 ==> newPages[0].imageUrl == old(newPages[0].imageUrl)
        invariant forall k :: 1 <= k < i && k < |newPages| ==>
          newPages[k].imageUrl == if IllustrationUrl(outcomes[k - 1]).Some? then IllustrationUrl(outcomes[k - 1]) else old(newPages[k].imageUrl)
        invariant forall k :: i <= k < |newPages| ==> newPages[k].imageUrl == old(newPages[k].imageUrl)
        invariant AnyIllustrated(outcomes, i - 1) ==>
          && currentStory == (if old(currentStory).Some? then Some(old(currentStory).value.(pages := newPages)) else None)
          && stories == WithPages(old(stories), story.id, newPages)
        invariant !AnyIllustrated(outcomes, i - 1) ==> currentStory == old(currentStory) && stories == old(stories)
      {
        var url := IllustrationUrl(outcomes[i - 1]);
        if url.Some? {
          newPages[i].imageUrl := url;
          if currentStory.Some? {
            currentStory := Some(currentStory.value.(pages := newPages));
          }
          WithPagesIdempotent(old(stories), story.id, newPages);
          stories := WithPages(stories, story.id, newPages);
        }
        i := i + 1;
      }
    }

    /** `handleUpdateMastery`, stamped with the clock reading `now`. */
    method UpdateMastery(wordId: string, success: bool, now: int)
      requires Valid()
      modifies this`wordMastery
      ensures Valid()
      ensures wordMastery == Mastery.Update(old(wordMastery), wordId, success, now)
      ensures forall k :: k in old(wordMastery) ==> wordMastery[k].level >= old(wordMastery)[k].level
    {
      Mastery.UpdateKeepsBoundsAndMonotone(wordMastery, wordId, success, now);
      wordMastery := Mastery.Update(wordMastery, wordId, success, now);
    }

    /** `handleOpenLibraryStory`: open a story from the library. */
    method OpenLibraryStory(story: Story)
      requires Valid() && CurrentScreen() == Library
      modifies this`currentStory, this`currentView, audio, audio.sources, audio.synthesis
      ensures Valid()
      ensures currentStory == Some(story) && currentView == StoryReader && CurrentScreen() == Reader
      ensures stories == old(stories) && AudioSilent()
    {
      currentStory := Some(story);
      SetView(StoryReader);
    }

    /**
     * `handleWordAddedToStory`: without a current story nothing happens;
     * otherwise the word joins the current story and every listed story with
     * its id is replaced by the updated one.
     */
    method WordAddedToStory(newWord: LearnedWord)
      requires Valid()
      modifies this`currentStory, this`stories
      ensures Valid()
      ensures old(currentStory).None? ==> currentStory == None && stories == old(stories)
      ensures old(currentStory).Some? ==>
        && currentStory == Some(WithWord(old(currentStory).value, newWord))
        && stories == ReplaceById(old(stories), WithWord(old(currentStory).value, newWord))
    {
      if currentStory.None? {
        return;
      }
      var updated := WithWord(currentStory.value, newWord);
      currentStory := Some(updated);
      stories := ReplaceById(stories, updated);
    }

    /** The reader's finish button opens the story quiz. */
    method FinishReading()
      requires Valid() && CurrentScreen() == Reader
      modifies this`currentView, audio, audio.sources, audio.synthesis
      ensures Valid() && currentView == StoryQuiz && AudioSilent()
    {
      SetView(StoryQuiz);
    }

    /** The story quiz's completion opens the passport. */
    method FinishStoryQuiz()
      requires Valid() && CurrentScreen() == QuizScreen
      modifies this`currentView, audio, audio.sources, audio.synthesis
      ensures Valid() && currentView == Passport && CurrentScreen() == PassportScreen && AudioSilent()
    {
      SetView(Passport);
    }

    /** A navigation button: before a profile is chosen the buttons do nothing. */
    method Navigate(button: NavButton)
      requires Valid() && hasStarted
      modifies this`currentView, audio, audio.sources, audio.synthesis
      ensures Valid()
      ensures kidProfile.None? ==>
        && currentView == old(currentView)
        && unchanged(audio) && unchanged(audio.sources) && (audio.synthesis == null || unchanged(audio.synthesis))
      ensures kidProfile.Some? ==> currentView == NavTarget(button)
      ensures currentView != old(currentView) ==> AudioSilent()
    {
      if kidProfile.None? {
        return;
      }
      SetView(NavTarget(button));
    }

    /** The back button, offered on every view but the home view. */
    method Back()
      requires Valid() && BackTarget().Some?
      modifies this`currentView, audio, audio.sources, audio.synthesis
      ensures Valid() && currentView == Home && CurrentScreen() == ThemePicker
      ensures AudioSilent()
    {
      SetView(Home);
    }
  }

  /** Some page among the first `n` requested received a truthy URL. */
  predicate AnyIllustrated(outcomes: seq<Illustration>, n: nat)
    requires n <= |outcomes|
  {
    exists k :: 0 <= k < n && IllustrationUrl(outcomes[k]).Some?
  }
}
