/**
 * The records shared by the learning-progress model: a word found on a quest,
 * a theme, a child's profile, a story page (an object, because page
 * illustrations are attached to the very page objects a story holds) and a
 * story. Optional fields of the records become `Option`.
 */
module Types {

  datatype Option<+T> = None | Some(value: T) {
    function GetOr(default: T): T {
      match this
      case Some(v) => v
      case None => default
    }
  }

  function Min(a: int, b: int): int { if a < b then a else b }

  /** A word learned on a quest. `id` is the clock reading at capture time, as text. */
  datatype LearnedWord = LearnedWord(
    id: string,
    word: string,
    definition: string,
    imageUrl: string,
    originalImage: string,
    timestamp: int,
    visualDetail: string)

  datatype ThemeCategory = Color | Shape | Material | Space | Function | Surprise

  datatype Theme = Theme(
    id: string,
    displayLabel: string,  // `label` in the source; a reserved word here
    category: ThemeCategory,
    icon: string,
    description: string,
    promptContext: string,
    color: string)

  datatype AgeGroup = ThreeToFive | SixToEight | NineToTwelve
  datatype EnglishLevel = Beginner | Intermediate | Advanced
  datatype KidProfile = KidProfile(ageGroup: AgeGroup, englishLevel: EnglishLevel)

  /** A story page. Only `imageUrl` is ever changed, and it is changed in place. */
  class Page {
    const pageNumber: int
    const text: string
    var imageUrl: Option<string>
    const fallbackImagePrompt: Option<string>

    constructor (pageNumber: int, text: string, imageUrl: Option<string>, fallbackImagePrompt: Option<string>)
      ensures this.pageNumber == pageNumber && this.text == text
      ensures this.imageUrl == imageUrl && this.fallbackImagePrompt == fallbackImagePrompt
    {
      this.pageNumber := pageNumber;
      this.text := text;
      this.imageUrl := imageUrl;
      this.fallbackImagePrompt := fallbackImagePrompt;
    }
  }

  /** A generated story; `learnedWords` is absent on stories that never carried words. */
  datatype Story = Story(
    id: string,
    title: string,
    themeId: string,
    date: string,
    pages: seq<Page>,
    wordsUsed: seq<string>,
    learnedWords: Option<seq<LearnedWord>>)

  /** The `word` field of every learned word, in order. */
  function Words(ws: seq<LearnedWord>): (r: seq<string>)
    ensures |r| == |ws|
    ensures forall i :: 0 <= i < |ws| ==> r[i] == ws[i].word
  {
    seq(|ws|, i requires 0 <= i < |ws| => ws[i].word)
  }

  /** No page object occurs twice in a page list (pages come from parsed JSON). */
  predicate DistinctPages(pages: seq<Page>) {
    forall i, j :: 0 <= i < j < |pages| ==> pages[i] != pages[j]
  }
}
