# Learning-progress model of the SnapStory vocabulary app

SnapStory is a vocabulary app for children. On a camera quest the child
photographs objects that fit a theme. Each accepted photo becomes a learned
word, and the words then feed a generated, illustrated story. This project
models the client-side bookkeeping of that loop and proves its properties in
Dafny:

- **Mastery tracker** (`Mastery`, `App.App.UpdateMastery`): a level 0..5 per
  word id. A correct answer raises the level by one, capped at 5. A wrong answer
  leaves it. Every answer stamps the review time.
- **Story list and app shell** (`App`):
  - which screen is shown, and the view transitions (every view change stops
    all audio);
  - building a new story from the quest's words and putting it at the head of
    the list;
  - adding a word to the open story;
  - the background loop that illustrates pages 1.. of a new story. It writes
    each image URL into the very page objects that the story, the story list
    and the current story share. It then hands that page list to the current
    story, whichever story that is, and to every listed story with the new
    story's id.
- **Word registries** (`Registry`, `MemoryGym.AllWords`, `Vocabulary.AllWords`):
  - The memory gym keeps the first word seen for each id.
  - The vocabulary list keeps the first word seen for each lower-cased text,
    then sorts by word.
  - Both scans are loops proved equal to one specification, `Registry.Dedup`.
    That function is proved equal to an independent first-occurrence
    definition.
- **Memory gym quiz** (`MemoryGym.Gym`): a deck of at most five distinct
  registry words in shuffled order, and the menu → quiz → menu state machine
  with its flip flag, card index and score. The 500 ms advance timer is an
  explicit step.
- **Vocabulary list** (`Vocabulary`): the case-insensitive substring search
  and the screen it selects (no words yet, no matches, or the card grid).
- **Camera quest** (`Quest.QuestSession`):
  - the item list, which grows on an accepted photo and is unchanged by a
    rejected one;
  - deletion by id;
  - the completion screen's condition;
  - the empty placeholder slots;
  - the re-entry guard of spoken feedback, with its fallback to the speech
    synthesizer.
- **Audio manager** (`Audio`):
  - the single playback slot (`stopAll`, `playGeminiAudio`, the end event);
  - the synthesizer voice priority;
  - the decoding of little-endian 16-bit PCM samples, with both round trips;
  - the shared instance.

Network answers, clock readings and the shuffle are parameters. The browser's
audio objects are small classes holding only the state the manager reads or
changes.

## Model

| member | source | states |
|---|---|---|
| Types.Words | app/page.tsx:93 | the words used by a story are the learned words' `word` texts, same length and order |
| Text.ToLower | app/components/VocabularyList.tsx:25 | lower-casing keeps the length and lower-cases each character |
| Text.ToLowerIdempotent | app/components/VocabularyList.tsx:36-38 | lower-casing an already lower-cased text changes nothing |
| Text.IncludesAt | app/components/VocabularyList.tsx:37 | `includes` holds exactly when the term occurs at some position of the text |
| Text.IncludesEmpty | app/components/VocabularyList.tsx:37 | every text includes the empty term |
| Registry.StoryWordsMembers | app/components/WordMemoryGym.tsx:24-33 | a word is scanned exactly when some story's `learnedWords` holds it; a story without them adds nothing |
| Registry.DedupDistinct | app/components/WordMemoryGym.tsx:27-30 | kept words have pairwise distinct keys, none of them seen before |
| Registry.DedupKeys | app/components/VocabularyList.tsx:25-27 | the kept keys are exactly the scanned keys not seen before |
| Registry.DedupAppend | app/components/WordMemoryGym.tsx:26-31 | scanning one more word keeps it exactly when its key is new |
| Registry.DedupIsFirstOccurrences | app/components/WordMemoryGym.tsx:21-35 | the scan equals the first-occurrence-wins definition of the registry |
| Registry.DedupSubset | app/components/VocabularyList.tsx:21-31 | every kept word was scanned |
| Registry.RegistryByIdUniqueAndComplete | app/components/WordMemoryGym.tsx:21-35 | the gym registry has no two entries with one id, every story word's id is present, and only story words are kept |
| Registry.RegistryByTextUniqueAndComplete | app/components/VocabularyList.tsx:21-31 | the vocabulary registry has no two entries with one lower-cased text, and every story word's lower-cased text is represented |
| Mastery.Update | app/page.tsx:125-136 | success gives min(5, old+1) and failure the old level; a missing entry counts as 0; the review time is stamped either way; the word is added to the keys and every other entry is unchanged |
| Mastery.UpdateKeepsBoundsAndMonotone | app/page.tsx:126-135 | one update keeps all levels in 0..5, never lowers a level, and raises the answered word by at most one |
| Mastery.ApplyAllBoundedMonotone | app/page.tsx:126-135 | any sequence of answers from a bounded tracker keeps all levels in 0..5, keeps every word and never lowers a level |
| Mastery.LevelCountsSuccesses | app/page.tsx:127-129 | from the empty tracker a word's level is its number of correct answers, capped at 5 |
| Mastery.DisplayLevelBounded | app/components/WordMemoryGym.tsx:117 | the level the grid shows (the recorded level, 0 without an entry) lies in 0..5 for a bounded tracker |
| Mastery.StarsShowLevel | app/components/WordMemoryGym.tsx:124-128 | for a level in 0..5, exactly `level` of the five stars are filled |
| Audio.FindFirst | app/services/audioManager.ts:103-106 | `find` returns the first voice matching the rule, or none when no voice matches |
| Audio.PreferredVoiceIsFirstBestRanked | app/services/audioManager.ts:102-110 | the chosen voice is the first of the best rank ('Google US English', then 'Samantha', then a local en-US voice, then any 'en' language); none is chosen exactly when no voice has a rank |
| Audio.BytesOf | app/services/audioManager.ts:58-62 | one byte per character, the character code modulo 256 |
| Audio.Int16LE | app/services/audioManager.ts:67 | a little-endian byte pair decodes to a signed 16-bit value |
| Audio.Int16RoundTrip | app/services/audioManager.ts:67 | encoding a 16-bit value and decoding it gives the value back |
| Audio.Int16BytesRoundTrip | app/services/audioManager.ts:67 | decoding a byte pair and encoding the value gives the bytes back |
| Audio.Samples | app/services/audioManager.ts:64-68 | an even number n of bytes gives n/2 samples; sample i is the little-endian value of bytes 2i and 2i+1 |
| Audio.EncodeSamplesAt | app/services/audioManager.ts:64-68 | bytes 2i and 2i+1 of an encoding are sample i's two bytes |
| Audio.SamplesRoundTrip | app/services/audioManager.ts:64-68 | decoding the encoding of 16-bit samples gives the samples back |
| Audio.BytesRoundTrip | app/services/audioManager.ts:64-68 | encoding the decoded samples gives the even-length bytes back |
| Audio.DecodePcm16 | app/services/audioManager.ts:57-68 | the two loops succeed exactly on an even byte count and then yield `Samples` of the bytes; an odd count throws a RangeError |
| Audio.AudioManager.ExclusivePlayback | app/services/audioManager.ts:33-47 | in every state keeping the slot invariant, at most one stream (source or utterance) plays; every manager step keeps the invariant except the as-written resumption of `playGeminiAudio` (Findings) |
| Audio.AudioManager.constructor | app/services/audioManager.ts:8-17 | a new manager has an empty slot, no audio context, and the synthesizer's current voices |
| Audio.AudioManager.OnVoicesChanged | app/services/audioManager.ts:11-15 | the voices-changed event re-reads the voice list, only when the constructor subscribed to it |
| Audio.AudioManager.GetAudioContext | app/services/audioManager.ts:26-31 | the audio context is created on first use and the same one is returned afterwards |
| Audio.AudioManager.StopAll | app/services/audioManager.ts:33-47 | the slot's source stops, the slot is empty, and speech is cancelled |
| Audio.AudioManager.PlayGeminiAudioBegin | app/services/audioManager.ts:49-55 | the part before the await: everything is stopped, the context exists (a new one is suspended), and the call must await exactly when the context is suspended |
| Audio.AudioManager.ResumeContext | app/services/audioManager.ts:53-55 | the resumed context runs; the slot invariant is kept |
| Audio.AudioManager.PlayGeminiAudioFinishAsWritten | app/services/audioManager.ts:57-86 | the part after the await as written: an odd byte count fails with a RangeError and an empty one with the zero-length error, leaving the slot as it was; otherwise a fresh source holding the decoded samples claims the slot and plays, with nothing stopped; the slot invariant survives only if the slot was empty and speech silent |
| Audio.AudioManager.PlayGeminiAudioFinish | app/services/audioManager.ts:57-86 | the corrected part after the await: whatever started during the await is stopped before the slot is claimed, so the slot invariant holds afterwards; results as in the as-written part |
| Audio.AudioManager.PlayGeminiAudio | app/services/audioManager.ts:49-87 | with nothing interleaved during the await: everything is stopped first and the context runs; a non-empty even byte string starts a fresh source holding its decoded samples, which claims the slot; odd and empty inputs fail and leave the slot empty |
| Audio.OverlapCounterexample | app/services/audioManager.ts:49-87 | a word spoken while the first `playGeminiAudio` awaits `resume()` is still queued when the new source starts playing |
| Audio.AudioManager.OnEnded | app/services/audioManager.ts:80-84 | a source's end event empties the slot only if that source still holds it |
| Audio.AudioManager.PlayTTS | app/services/audioManager.ts:89-113 | everything is stopped first; without a synthesizer nothing else happens; otherwise the one utterance queued is the text at rate 0.9, pitch 1.05, en-US, with the preferred voice; an empty voice list is re-read first |
| Audio.AudioRegistry.GetInstance | app/services/audioManager.ts:19-24 | every call returns the same manager; the first call creates it |
| MemoryGym.AllWords | app/components/WordMemoryGym.tsx:21-35 | the nested scan computes exactly `RegistryById` of the stories |
| MemoryGym.DrawIsSample | app/components/WordMemoryGym.tsx:39-40 | the deck is min(5, registry size) registry words with pairwise distinct ids |
| MemoryGym.Gym.constructor | app/components/WordMemoryGym.tsx:14-18 | the gym opens on the menu with an empty deck, index 0, face down, score 0 |
| MemoryGym.Gym.StartSession | app/components/WordMemoryGym.tsx:37-45 | the deck is the first five shuffled words; index 0, face down, score 0, quiz mode; the session invariant holds |
| MemoryGym.Gym.HandleFlip | app/components/WordMemoryGym.tsx:47-54 | only a face-down card reveals; revealing turns it over, stops the slot and speaks the card's word; a tap on a revealed card changes neither the gym nor the audio manager, its sources or the synthesizer |
| MemoryGym.Gym.HandleResponse | app/components/WordMemoryGym.tsx:56-75 | one report with the card's id and outcome; the score rises by one exactly on success; the advance is scheduled before the last card, and the last card returns to the menu; the score never exceeds the answers, which never exceed the deck |
| MemoryGym.Gym.HandleResponseAsWritten | app/components/WordMemoryGym.tsx:56-75 | every tap reports, scores on success and schedules one more advance, including taps during the delay |
| MemoryGym.Gym.AdvanceTimerFires | app/components/WordMemoryGym.tsx:67-70 | the timer turns the card face down and moves the index by exactly one |
| MemoryGym.TripleTapCounterexample | app/components/WordMemoryGym.tsx:56-75 | three taps within the delay on a two-card deck give score 3, and after the second timer the index is 2, the deck size |
| Vocabulary.InsertPermutes | app/components/VocabularyList.tsx:33 | inserting adds exactly the one word |
| Vocabulary.SortedCons | app/components/VocabularyList.tsx:33 | a word no later than every word of a sorted list can head it |
| Vocabulary.InsertSorted | app/components/VocabularyList.tsx:33 | inserting into a sorted list keeps it sorted |
| Vocabulary.SortIsSorted | app/components/VocabularyList.tsx:33 | the sort's output is ordered by word under any total preorder |
| Vocabulary.SortPermutes | app/components/VocabularyList.tsx:33 | the sort's output is a permutation of its input |
| Vocabulary.SameWordsSameKeys | app/components/VocabularyList.tsx:33 | a permutation has the same keys |
| Vocabulary.InsertKeepsDistinct | app/components/VocabularyList.tsx:33 | inserting a word with a new key keeps keys distinct |
| Vocabulary.SortKeepsDistinct | app/components/VocabularyList.tsx:33 | sorting keeps keys pairwise distinct |
| Vocabulary.AllWords | app/components/VocabularyList.tsx:17-34 | the scan and sort compute exactly the sorted text registry |
| Vocabulary.CollectionSortedUniqueComplete | app/components/VocabularyList.tsx:17-34 | the collection is sorted by word, has no two words with one lower-cased text, represents every story word's lower-cased text, and holds only story words |
| Vocabulary.FilterMembers | app/components/VocabularyList.tsx:36-38 | a word is shown exactly when it is collected and its lower-cased text contains the lower-cased term at some position |
| Vocabulary.FilterAppend | app/components/VocabularyList.tsx:36-38 | the filter distributes over concatenation, so it keeps the collection's order |
| Vocabulary.EmptySearchShowsAll | app/components/VocabularyList.tsx:36-38 | the empty search shows the whole collection |
| Vocabulary.FilterKeepsSorted | app/components/VocabularyList.tsx:33-38 | the filtered list of the sorted collection is sorted |
| Vocabulary.Screen | app/components/VocabularyList.tsx:63 | the header count is the collection size; "No words yet" exactly when the collection is empty; "No words match" exactly when it is not empty but nothing matches; otherwise the grid of filtered words |
| Vocabulary.EmptySearchShowsGrid | app/components/VocabularyList.tsx:82-95 | a non-empty collection under the empty search shows every word |
| Quest.FeedbackOr | app/components/CameraQuest.tsx:43 | the service's feedback when present and non-empty, otherwise the fallback |
| Quest.WithoutId | app/components/CameraQuest.tsx:107 | the kept items are exactly the items with another id, and there are no more of them |
| Quest.WithoutIdAppend | app/components/CameraQuest.tsx:107 | deletion distributes over concatenation, so the kept items stay in order |
| Quest.WithoutAbsentId | app/components/CameraQuest.tsx:107 | deleting an id no item carries changes nothing |
| Quest.SlotsFillTarget | app/components/CameraQuest.tsx:199-203 | there are max(0, target − found) placeholders, numbered found+1 to target; none once the target is reached |
| Quest.QuestSession.constructor | app/components/CameraQuest.tsx:16-22 | a quest starts with no items, nothing processing, no preview, no error and no speech |
| Quest.QuestSession.SelectFile | app/components/CameraQuest.tsx:26-33 | without a file nothing changes; with one, processing starts and the error is cleared |
| Quest.QuestSession.PlayAudioStart | app/components/CameraQuest.tsx:76-78 | nothing starts while speech is outstanding; otherwise the text's speech is requested and the flag set |
| Quest.QuestSession.PlayAudioFinish | app/components/CameraQuest.tsx:79-91 | non-empty audio of even length plays in a new source holding its samples; an empty payload, no audio, a thrown request or a failed playback falls back to speaking the text, and an empty payload never touches the audio context; the flag is always cleared |
| Quest.QuestSession.FinishIdentification | app/components/CameraQuest.tsx:35-65 | a rejection keeps the items and sets the feedback or the theme-label message; an acceptance appends exactly one new word at the end and previews it; spoken feedback starts exactly when no speech is outstanding, and otherwise the outstanding request is kept; a failed request stops the spinner and changes nothing else |
| Quest.QuestSession.FinishIdentificationAsWritten | app/components/CameraQuest.tsx:35-48 | a thrown identify request leaves `isProcessing` as it was |
| Quest.StuckSpinnerCounterexample | app/components/CameraQuest.tsx:35-48 | after one failed identification the spinner is up with no photo in flight |
| Quest.QuestSession.SpeakPreview | app/components/CameraQuest.tsx:240 | the preview's speaker button requests its word's speech exactly when no speech is outstanding; a refused tap keeps the flag and the outstanding request |
| Quest.QuestSession.DeleteItem | app/components/CameraQuest.tsx:105-111 | every item with the id goes and the rest stay in order; the preview closes exactly when it shows that id; below the target the completion screen is not shown |
| Quest.QuestSession.ClosePreview | app/components/CameraQuest.tsx:113-116 | the preview closes; completion then depends only on count, processing and error |
| Quest.QuestSession.CloseValidationError | app/components/CameraQuest.tsx:118-121 | the error closes; completion then depends only on count, processing and preview |
| Quest.QuestSession.Complete | app/components/CameraQuest.tsx:123-132 | the completion screen hands over exactly the found items, at least the target count |
| App.IllustrationUrl | app/page.tsx:113-114 | an illustration answer counts exactly when it is a non-empty URL |
| App.WithPages | app/page.tsx:117 | stories with the id get the page list; the others are unchanged; ids and order are kept |
| App.WithPagesIdempotent | app/page.tsx:111-118 | replacing the pages twice with one list equals doing it once |
| App.ReplaceById | app/page.tsx:153 | stories with the updated story's id are replaced; the others are unchanged; ids and order are kept |
| App.WithWord | app/page.tsx:146-150 | the new word is appended to the learned words (an absent list counts as empty) and its text to the words used |
| App.NewStory | app/page.tsx:87-95 | a new story's words used are the learned words' texts in order; it carries the learned words and the theme's id |
| App.App.constructor | app/page.tsx:54-62 | the app starts unstarted on the home view with 3 items per quest, no stories and an empty tracker |
| App.App.BackTarget | app/page.tsx:247 | a back button, leading home, exists exactly when the shell is shown and the view is not home |
| App.App.SetView | app/page.tsx:64-67 | a change of view stops all audio; staying on a view leaves audio alone |
| App.App.Start | app/page.tsx:156-158 | starting shows the profile selector while there is no profile, and stops audio |
| App.App.ChooseProfile | app/page.tsx:160-169 | choosing a profile leaves the profile selector |
| App.App.StartQuest | app/page.tsx:69-73 | the theme and item count are kept, the camera quest opens and audio is silenced |
| App.App.QuestComplete | app/page.tsx:75-78 | the found words are kept, the story-mode choice opens and audio is silenced |
| App.App.SelectStoryMode | app/page.tsx:80-82 | without a theme or a profile neither the view nor the audio changes; otherwise the painting screen opens (silencing audio on a change of view) and the request captures theme, profile and words |
| App.App.FinishStoryGeneration | app/page.tsx:84-106 | a generated story becomes current, is prepended to the list and opens, and its backfill starts; a failure returns to the story-mode choice with the stories unchanged; a change of view silences audio |
| App.App.GenerateRemainingImages | app/page.tsx:109-123 | page 0 is never touched; page i ≥ 1 gets its URL exactly when the answer is truthy, and a failure skips only that page; if any page was illustrated, the current story (whatever its id) and the stories with the id get the page list; otherwise nothing changes |
| App.App.UpdateMastery | app/page.tsx:125-136 | the tracker becomes `Mastery.Update` of the answer, stays within 0..5, and no level drops |
| App.App.OpenLibraryStory | app/page.tsx:138-141 | the chosen story becomes current and the reader opens with audio silenced; the list is unchanged |
| App.App.WordAddedToStory | app/page.tsx:143-154 | without a current story nothing changes; otherwise the current story gains the word and the stories with its id are replaced by it |
| App.App.FinishReading | app/page.tsx:209-211 | finishing the story opens the story quiz and silences audio |
| App.App.FinishStoryQuiz | app/page.tsx:219 | finishing the story quiz opens the passport and silences audio |
| App.App.Navigate | app/page.tsx:160-172 | before a profile exists the buttons change neither the view nor the audio; afterwards each opens its view, silencing audio on a change of view |
| App.App.Back | app/page.tsx:247 | the back button opens the home view (the theme picker) and stops audio |

## Left out

- Rendering, layout, animation and the click sounds (`playClick`, `playSuccess` and so on) are not modelled. They are user interface only.
- The network calls, the file reader and the clock are not modelled. Their results are parameters: the identify answer, the speech reply, the story answer, the illustration answers, the new word's id and timestamp, the story's id and date.
- `atob`, the `/ 32768.0` float scaling, the 24000 Hz buffer and the audio graph connections are left out. Playback takes the decoded byte string and keeps integer samples.
- Audio.AudioManager.ExclusivePlayback: exclusivity is proved for the corrected resumption only. The as-written `playGeminiAudio` lets a stream started during its await overlap the new source (Findings), and a second `playGeminiAudio` in that window would leave a playing source the slot no longer holds.
- Quest.QuestSession.PlayAudioFinish: `playGeminiAudio` runs there as one step, with no handler interleaved during its await.
- React state batching and the moment effects run are not modelled. State changes happen at the handler's step. `SetView` stops audio as the effect on `currentView` does.
- Handlers read the current state, not the state captured in their closures. In particular, `playAudio` called from the file-read callback sees the current `isPlayingAudio`. The exception is the story request, which captures its values explicitly.
- App.App.GenerateRemainingImages runs as one step. Other handlers running between two of its requests are not modelled. Switching the current story before the loop runs is modelled, and then that story receives the new story's pages.
- MemoryGym.Draw: the shuffle (`sort` with a random comparator) is any permutation given as a parameter. Uniformity is not modelled.
- Vocabulary.SortByWord: the in-place `sort` is modelled on values as an insertion sort. `localeCompare` is an abstract total preorder, so only sortedness and permutation are proved. Stability is not proved.
- Text.ToLower: only A–Z are lower-cased. Unicode case mapping is not modelled.
- `startListening` in app/components/CameraQuest.tsx is not modelled, because no control calls it. Its flags `isRecording` and `showMicFeedback` are not modelled either.
- The vocabulary list's selected-card modal and its speaker buttons are not modelled. They only call `playTTS`, which is modelled.
- The gym's "hear again" button is not modelled for the same reason.
- The child components (story book, story quiz, passport, library, theme picker, profile selector) are not part of this model. Their callbacks into the shell are modelled.
- The `KID_PROFILE` and `VOCAB_REVIEW` views are not given their own behaviour. No transition reaches them, and they render the theme picker.

## Findings

| source | as written | input that shows it | evidently intended | confidence | as-written member | corrected member |
|---|---|---|---|---|---|---|
| app/components/WordMemoryGym.tsx:56-75 | The answer buttons stay active during the 500 ms advance delay. Each tap reports to the tracker, scores on success and schedules another advance. | A two-word deck where "I knew it" is tapped three times on card 1 within 500 ms. Result: score 3 of 2 and the word's level raised by 3. The second timer sets the index to 2, and the quiz render reads `imageUrl` of the missing card `deck[2]` and throws. The model's index 2 is where that render happens. | Each card is answered once. Taps while the advance is pending are ignored. | high, not executed | MemoryGym.TripleTapCounterexample | MemoryGym.Gym.HandleResponse |
| app/components/CameraQuest.tsx:35-48 | `identifyObject` throws on a non-OK response, and the file-read callback has no handler, so `isProcessing` is never cleared. | A photo whose identify request answers non-OK. The "Identifying..." spinner stays with no request in flight, until another photo is picked. | The spinner stops and the items stay unchanged. | medium, not executed | Quest.StuckSpinnerCounterexample | Quest.QuestSession.FinishIdentification |
| app/services/audioManager.ts:49-87 | `stopAll` runs before `await ctx.resume()`. After the await the new source claims the slot and starts without stopping anything. | The first speech audio of a session, on a suspended context. During the await, a memory-gym card flip calls `playTTS`. When the await ends both the utterance and the new source play. | Playback is exclusive: whatever started during the await is stopped before the slot is claimed. | medium, not executed | Audio.OverlapCounterexample | Audio.AudioManager.PlayGeminiAudioFinish |

## Notes on the code

- The memory gym keys its registry by word id (app/components/WordMemoryGym.tsx:27). The vocabulary list keys its registry by lower-cased text (app/components/VocabularyList.tsx:25).
- The gym shuffles with a random comparator (app/components/WordMemoryGym.tsx:39). The model takes an arbitrary permutation.
- The backfill replaces the current story's pages without checking the current story's id (app/page.tsx:116).
- The client requests illustrations only for pages 1 onward (app/page.tsx:111).
- Quest completion needs the target count, and also no open preview, no identification in progress and no validation message (app/components/CameraQuest.tsx:123).
