/**
 * The camera quest: the child photographs objects matching a theme until
 * `targetCount` of them are collected. Each photo is identified by a remote
 * service; an accepted photo becomes a learned word appended to the item
 * list and shown in a preview, a rejected one raises a validation message.
 * Spoken feedback goes through `playAudio`, which refuses to start while a
 * previous request is still being answered.
 *
 * The file picker, the file reading and the remote calls are steps whose
 * results are parameters: `SelectFile` is the picker's change event,
 * `FinishIdentification` the end of the read-and-identify callback,
 * `PlayAudioStart`/`PlayAudioFinish` the two halves of `playAudio`.
 */
module Quest {
  import opened Types
  import Audio

  datatype ValidationError = ValidationError(feedback: string, image: string)

  /** The identify service's answer for one photo. */
  datatype Identification = Identification(
    matchesTheme: bool,
    word: string,
    definition: string,
    visualDetail: string,
    feedback: Option<string>)

  /** The identify request either answers or throws (a non-OK response or a network error). */
  datatype IdentifyOutcome = Identified(result: Identification) | IdentifyFailed

  /**
   * The speech request: audio data (given here already decoded to its byte
   * string), a reply without audio, or a thrown request.
   */
  datatype SpeechReply = SpeechAudio(binary: string) | NoSpeechAudio | SpeechRequestFailed

  /** How the text was finally voiced: the service's audio in a new source, or the synthesizer. */
  datatype Voicing = ServiceAudio(source: Audio.AudioSource) | Synthesized

  /** `feedback || fallback`: an absent or empty feedback gives the fallback. */
  function FeedbackOr(feedback: Option<string>, fallback: string): (text: string)
    ensures feedback.Some? && feedback.value != "" ==> text == feedback.value
    ensures feedback.None? || feedback.value == "" ==> text == fallback
  {
    if feedback.Some? && feedback.value != "" then feedback.value else fallback
  }

  function RejectionMessage(theme: Theme): string {
    "That doesn't look like " + theme.displayLabel + "! Try again."
  }

  function RejectionSpeech(theme: Theme): string {
    "That is not " + theme.displayLabel + ". Try again."
  }

  function FoundSpeech(word: string): string {
    "You found a " + word + "!"
  }

  /** The items left after deleting `id`: every item with another id, in order. */
  function WithoutId(items: seq<LearnedWord>, id: string): (r: seq<LearnedWord>)
    ensures |r| <= |items|
    ensures forall w :: w in r <==> w in items && w.id != id
  {
    if items == [] then []
    else (if items[0].id != id then [items[0]] else []) + WithoutId(items[1..], id)
  }

  /** Deleting from a concatenation deletes from each part: the kept items keep their order. */
  lemma {:induction false} WithoutIdAppend(a: seq<LearnedWord>, b: seq<LearnedWord>, id: string)
    ensures WithoutId(a + b, id) == WithoutId(a, id) + WithoutId(b, id)
  {
    if a == [] {
      assert a + b == b;
    } else {
      assert (a + b)[0] == a[0] && (a + b)[1..] == a[1..] + b;
      WithoutIdAppend(a[1..], b, id);
    }
  }

  /** Deleting an id no item carries changes nothing. */
  lemma {:induction false} WithoutAbsentId(items: seq<LearnedWord>, id: string)
    requires forall w :: w in items ==> w.id != id
    ensures WithoutId(items, id) == items
  {
    if items != [] {
      WithoutAbsentId(items[1..], id);
      assert items == [items[0]] + items[1..];
    }
  }

  /** The number of dashed placeholders after the found items: `Array.from({length: target - found})`. */
  function EmptySlots(targetCount: int, found: nat): nat
  {
    if targetCount - found > 0 then targetCount - found else 0
  }

  /** The numbers written in the placeholders. */
  function SlotLabels(targetCount: int, found: nat): seq<int>
  {
    seq(EmptySlots(targetCount, found), i => i + 1 + found)
  }

  /**
   * Found items and placeholders together fill the target and never less than
   * the found items; the placeholders are numbered on from the found items up
   * to the target; with the target reached there are none.
   */
  lemma SlotsFillTarget(targetCount: int, found: nat)
    ensures found + EmptySlots(targetCount, found) == if found < targetCount then targetCount else found
    ensures found >= targetCount <==> EmptySlots(targetCount, found) == 0
    ensures forall i :: 0 <= i < |SlotLabels(targetCount, found)| ==>
      found < SlotLabels(targetCount, found)[i] <= targetCount && SlotLabels(targetCount, found)[i] == found + 1 + i
  {
  }

  class QuestSession {
    const targetCount: int
    const theme: Theme
    const audio: Audio.AudioManager
    var items: seq<LearnedWord>
    var isProcessing: bool
    var previewItem: Option<LearnedWord>
    var isPlayingAudio: bool
    var validationError: Option<ValidationError>
    /** The text whose speech request is being answered. */
    var pendingSpeech: Option<string>
    /** Photos picked whose identification has not finished. */
    ghost var inFlight: nat

    /**
     * The spinner shows only while a photo is being identified, and the audio
     * flag is set exactly while a speech request is outstanding.
     */
    ghost predicate Valid()
      reads this, audio.Footprint()
    {
      && audio.Valid()
      && (isProcessing ==> inFlight > 0)
      && (isPlayingAudio <==> pendingSpeech.Some?)
    }

    constructor (targetCount: int, theme: Theme, audio: Audio.AudioManager)
      requires audio.Valid()
      ensures Valid()
      ensures this.targetCount == targetCount && this.theme == theme && this.audio == audio
      ensures items == [] && !isProcessing && previewItem == None && validationError == None
      ensures !isPlayingAudio && inFlight == 0
    {
      this.targetCount := targetCount;
      this.theme := theme;
      this.audio := audio;
      items := [];
      isProcessing := false;
      previewItem := None;
      isPlayingAudio := false;
      validationError := None;
      pendingSpeech := None;
      inFlight := 0;
    }

    /** The quest-complete screen replaces everything else. */
    predicate ShowsCompletion()
      reads this
    {
      |items| >= targetCount && previewItem.None? && !isProcessing && validationError.None?
    }

    /** The picker's change event: without a file nothing happens; with one, identification starts. */
    method SelectFile(hasFile: bool)
      requires Valid()
      modifies this`isProcessing, this`validationError, this`inFlight
      ensures Valid()
      ensures !hasFile ==> unchanged(this)
      ensures hasFile ==> isProcessing && validationError == None && inFlight == old(inFlight) + 1
    {
      if !hasFile {
        return;
      }
      isProcessing := true;
      validationError := None;
      inFlight := inFlight + 1;
    }

    /** The first half of `playAudio`: nothing while a request is outstanding; otherwise request speech for `text`. */
    method PlayAudioStart(text: string) returns (started: bool)
      requires Valid()
      modifies this`isPlayingAudio, this`pendingSpeech
      ensures Valid()
      ensures started <==> !old(isPlayingAudio)
      ensures started ==> pendingSpeech == Some(text)
      ensures !started ==> pendingSpeech == old(pendingSpeech)
      ensures isPlayingAudio
    {
      if isPlayingAudio {
        return false;
      }
      isPlayingAudio := true;
      pendingSpeech := Some(text);
      started := true;
    }

    /**
     * The second half of `playAudio`: play the returned audio; when there is
     * none (an empty payload counts as none), when the request threw or when playing it threw, speak the text
     * with the synthesizer instead. The flag is cleared in every case.
     */
    method PlayAudioFinish(reply: SpeechReply) returns (voiced: Voicing)
      requires Valid() && isPlayingAudio
      modifies this`isPlayingAudio, this`pendingSpeech, audio, audio.sources, audio.synthesis, audio.audioCtx
      ensures Valid()
      ensures !isPlayingAudio && pendingSpeech == None
      ensures voiced.ServiceAudio? <==> reply.SpeechAudio? && |reply.binary| > 0 && |reply.binary| % 2 == 0
      ensures voiced.ServiceAudio? ==>
        && audio.currentSource == voiced.source && voiced.source.playing
        && voiced.source.samples == Audio.Samples(Audio.BytesOf(reply.binary))
      ensures reply.SpeechAudio? && reply.binary == "" ==> voiced.Synthesized? && audio.audioCtx == old(audio.audioCtx)
      ensures voiced.Synthesized? ==> audio.currentSource == null && (audio.synthesis != null ==>
        audio.synthesis.queue == [Audio.Utterance(old(pendingSpeech).value, Audio.SpeechRate, Audio.SpeechPitch, "en-US", Audio.PreferredVoice(audio.voices))])
    {
      var text := pendingSpeech.value;
      match reply {
        case SpeechAudio(binary) =>
          if binary == "" {
            audio.PlayTTS(text);
            voiced := Synthesized;
          } else {
            var played := audio.PlayGeminiAudio(binary);
            if played.Failed? {
              audio.PlayTTS(text);
              voiced := Synthesized;
            } else {
              voiced := ServiceAudio(played.source);
            }
          }
        case NoSpeechAudio =>
          audio.PlayTTS(text);
          voiced := Synthesized;
        case SpeechRequestFailed =>
          audio.PlayTTS(text);
          voiced := Synthesized;
      }
      isPlayingAudio := false;
      pendingSpeech := None;
    }

    /**
     * The end of the read-and-identify callback, with a failed request
     * handled: a rejected photo leaves the items alone and explains why; an
     * accepted one is appended as a new learned word and previewed; a failed
     * request just stops the spinner. Spoken feedback is requested last.
     */
    method FinishIdentification(outcome: IdentifyOutcome, image: string, id: string, now: int)
      returns (spoken: bool)
      requires Valid() && inFlight > 0
      modifies this
      ensures Valid()
      ensures !isProcessing && inFlight == old(inFlight) - 1
      ensures outcome.IdentifyFailed? ==>
        && items == old(items) && previewItem == old(previewItem) && validationError == old(validationError)
        && !spoken && isPlayingAudio == old(isPlayingAudio) && pendingSpeech == old(pendingSpeech)
      ensures outcome.Identified? && !outcome.result.matchesTheme ==>
        && items == old(items) && previewItem == old(previewItem)
        && validationError == Some(ValidationError(FeedbackOr(outcome.result.feedback, RejectionMessage(theme)), image))
        && (spoken <==> !old(isPlayingAudio)) && isPlayingAudio
        && (spoken ==> pendingSpeech == Some(FeedbackOr(outcome.result.feedback, RejectionSpeech(theme))))
        && (!spoken ==> pendingSpeech == old(pendingSpeech))
      ensures outcome.Identified? && outcome.result.matchesTheme ==>
        var item := LearnedWord(id, outcome.result.word, outcome.result.definition, image, image, now, outcome.result.visualDetail);
        && items == old(items) + [item] && previewItem == Some(item) && validationError == old(validationError)
        && (spoken <==> !old(isPlayingAudio)) && isPlayingAudio
        && (spoken ==> pendingSpeech == Some(FoundSpeech(outcome.result.word)))
        && (!spoken ==> pendingSpeech == old(pendingSpeech))
    {
      inFlight := inFlight - 1;
      isProcessing := false;
      if outcome.IdentifyFailed? {
        return false;
      }
      var result := outcome.result;
      if !result.matchesTheme {
        validationError := Some(ValidationError(FeedbackOr(result.feedback, RejectionMessage(theme)), image));
        spoken := PlayAudioStart(FeedbackOr(result.feedback, RejectionSpeech(theme)));
        return;
      }
      var newItem := LearnedWord(id, result.word, result.definition, image, image, now, result.visualDetail);
      items := items + [newItem];
      previewItem := Some(newItem);
      spoken := PlayAudioStart(FoundSpeech(result.word));
    }

    /**
     * The callback as the source has it: a thrown identify request escapes
     * the callback before `isProcessing` is cleared.
     */
    method FinishIdentificationAsWritten(outcome: IdentifyOutcome, image: string, id: string, now: int)
      returns (spoken: bool)
      requires Valid() && inFlight > 0
      modifies this
      ensures outcome.IdentifyFailed? ==>
        && isProcessing == old(isProcessing) && inFlight == old(inFlight) - 1
        && items == old(items) && validationError == old(validationError) && !spoken
      ensures outcome.Identified? ==> Valid() && !isProcessing
    {
      if outcome.IdentifyFailed? {
        inFlight := inFlight - 1;
        return false;
      }
      spoken := FinishIdentification(outcome, image, id, now);
    }

    /** Play the preview's word again. */
    method SpeakPreview() returns (started: bool)
      requires Valid() && previewItem.Some?
      modifies this`isPlayingAudio, this`pendingSpeech
      ensures Valid()
      ensures started <==> !old(isPlayingAudio)
      ensures started ==> pendingSpeech == Some(previewItem.value.word)
      ensures !started ==> isPlayingAudio && pendingSpeech == old(pendingSpeech)
    {
      started := PlayAudioStart(previewItem.value.word);
    }

    /**
     * `deleteItem`: drop every item with this id, keep the rest in order, and
     * close the preview when it shows that id.
     */
    method DeleteItem(id: string)
      requires Valid()
      modifies this`items, this`previewItem
      ensures Valid()
      ensures items == WithoutId(old(items), id)
      ensures forall w :: w in items <==> w in old(items) && w.id != id
      ensures previewItem == if old(previewItem).Some? && old(previewItem).value.id == id then None else old(previewItem)
      ensures |items| < targetCount ==> !ShowsCompletion()
    {
      items := WithoutId(items, id);
      if previewItem.Some? && previewItem.value.id == id {
        previewItem := None;
      }
    }

    method ClosePreview()
      requires Valid()
      modifies this`previewItem
      ensures Valid() && previewItem == None
      ensures ShowsCompletion() <==> |items| >= targetCount && !isProcessing && validationError.None?
    {
      previewItem := None;
    }

    method CloseValidationError()
      requires Valid()
      modifies this`validationError
      ensures Valid() && validationError == None
      ensures ShowsCompletion() <==> |items| >= targetCount && !isProcessing && previewItem.None?
    {
      validationError := None;
    }

    /** The "Create Story" button of the completion screen hands over exactly the found items. */
    method Complete() returns (words: seq<LearnedWord>)
      requires ShowsCompletion()
      ensures words == items && |words| >= targetCount
    {
      words := items;
    }
  }

  /**
   * A quest of two items: the first photo's identify request fails. Without
   * a handler the spinner stays up although no photo is being identified.
   */
  method StuckSpinnerCounterexample(theme: Theme, audio: Audio.AudioManager, image: string)
    returns (processing: bool, ghost photosInFlight: nat, completionShown: bool)
    requires audio.Valid()
    ensures processing && photosInFlight == 0 && !completionShown
  {
    var quest := new QuestSession(2, theme, audio);
    quest.SelectFile(true);
    var spoken := quest.FinishIdentificationAsWritten(IdentifyFailed, image, "1", 1);
    processing, photosInFlight, completionShown := quest.isProcessing, quest.inFlight, quest.ShowsCompletion();
  }
}
