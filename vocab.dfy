/**
 * The vocabulary collection: the learned words of all stories, one per
 * lower-cased word text (the first one met wins), sorted by word, and the
 * search filter over it with the screen it selects.
 *
 * `localeCompare` is not modelled character by character: the sort takes the
 * order as a parameter `le`, where `le(a, b)` stands for
 * `a.localeCompare(b) <= 0`, and the proofs assume only that it is a total
 * preorder.
 */
module Vocabulary {
  import opened Types
  import opened Registry
  import Text

  /** `le` is total and transitive: what `localeCompare` provides. */
  ghost predicate TotalPreorder(le: (string, string) -> bool) {
    && (forall a, b :: le(a, b) || le(b, a))
    && (forall a, b, c :: le(a, b) && le(b, c) ==> le(a, c))
  }

  /** Every word comes no later in the order than every word after it. */
  ghost predicate SortedByWord(ws: seq<LearnedWord>, le: (string, string) -> bool) {
    forall i, j :: 0 <= i < j < |ws| ==> le(ws[i].word, ws[j].word)
  }

  /** Insert `x` after every word that does not come after it (stable insertion). */
  function Insert(t: seq<LearnedWord>, x: LearnedWord, le: (string, string) -> bool): seq<LearnedWord>
  {
    if t == [] then [x]
    else if !le(t[0].word, x.word) then [x] + t
    else [t[0]] + Insert(t[1..], x, le)
  }

  /** The sort: insert the words one by one, in their order. */
  function SortByWord(xs: seq<LearnedWord>, le: (string, string) -> bool): seq<LearnedWord>
  {
    if xs == [] then [] else Insert(SortByWord(xs[..|xs| - 1], le), xs[|xs| - 1], le)
  }

  lemma {:induction false} InsertPermutes(t: seq<LearnedWord>, x: LearnedWord, le: (string, string) -> bool)
    ensures multiset(Insert(t, x, le)) == multiset(t) + multiset{x}
  {
    if t != [] && le(t[0].word, x.word) {
      InsertPermutes(t[1..], x, le);
      assert t == [t[0]] + t[1..];
    }
  }

  /** A word that comes no later than every word of a sorted list can head it. */
  lemma SortedCons(a: LearnedWord, s: seq<LearnedWord>, le: (string, string) -> bool)
    requires SortedByWord(s, le)
    requires forall k :: 0 <= k < |s| ==> le(a.word, s[k].word)
    ensures SortedByWord([a] + s, le)
  {
    var r := [a] + s;
    forall i, j | 0 <= i < j < |r| ensures le(r[i].word, r[j].word) {
      assert r[j] == s[j - 1];
      if i > 0 { assert r[i] == s[i - 1]; }
    }
  }

  lemma {:induction false} InsertSorted(t: seq<LearnedWord>, x: LearnedWord, le: (string, string) -> bool)
    requires TotalPreorder(le) && SortedByWord(t, le)
    ensures SortedByWord(Insert(t, x, le), le)
  {
    if t == [] {
    } else if !le(t[0].word, x.word) {
      assert le(x.word, t[0].word);
      forall k | 0 <= k < |t| ensures le(x.word, t[k].word) {
        if k > 0 { assert le(t[0].word, t[k].word); }
      }
      SortedCons(x, t, le);
    } else {
      var rest := Insert(t[1..], x, le);
      InsertSorted(t[1..], x, le);
      InsertPermutes(t[1..], x, le);
      forall k | 0 <= k < |rest| ensures le(t[0].word, rest[k].word) {
        assert rest[k] in multiset(rest);
        if rest[k] != x {
          var m :| 0 <= m < |t[1..]| && t[1..][m] == rest[k];
          assert t[m + 1] == rest[k];
        }
      }
      SortedCons(t[0], rest, le);
    }
  }

  /** The sorted collection is sorted by word. */
  lemma {:induction false} SortIsSorted(xs: seq<LearnedWord>, le: (string, string) -> bool)
    requires TotalPreorder(le)
    ensures SortedByWord(SortByWord(xs, le), le)
  {
    if xs != [] {
      SortIsSorted(xs[..|xs| - 1], le);
      InsertSorted(SortByWord(xs[..|xs| - 1], le), xs[|xs| - 1], le);
    }
  }

  /** The sorted collection holds the same words, each as often as before. */
  lemma {:induction false} SortPermutes(xs: seq<LearnedWord>, le: (string, string) -> bool)
    ensures multiset(SortByWord(xs, le)) == multiset(xs)
  {
    if xs != [] {
      var init, last := xs[..|xs| - 1], xs[|xs| - 1];
      SortPermutes(init, le);
      InsertPermutes(SortByWord(init, le), last, le);
      assert xs == init + [last];
    }
  }

  /** Lists holding the same words have the same keys. */
  lemma SameWordsSameKeys(a: seq<LearnedWord>, b: seq<LearnedWord>, key: LearnedWord -> string)
    requires multiset(a) == multiset(b)
    ensures KeySet(a, key) == KeySet(b, key)
  {
    forall y ensures y in a <==> y in b {
      assert y in a <==> y in multiset(a);
      assert y in b <==> y in multiset(b);
    }
  }

  lemma {:induction false} InsertKeepsDistinct(t: seq<LearnedWord>, x: LearnedWord, le: (string, string) -> bool, key: LearnedWord -> string)
    requires DistinctKeys(t, key) && key(x) !in KeySet(t, key)
    ensures DistinctKeys(Insert(t, x, le), key)
  {
    if t == [] {
    } else if !le(t[0].word, x.word) {
      var r := [x] + t;
      forall i, j | 0 <= i < j < |r| ensures key(r[i]) != key(r[j]) {
        if i == 0 {
          assert r[j] in t;
        } else {
          assert r[i] == t[i - 1] && r[j] == t[j - 1];
        }
      }
    } else {
      var tail := t[1..];
      assert KeySet(tail, key) <= KeySet(t, key) by {
        forall k | k in KeySet(tail, key) ensures k in KeySet(t, key) {
          var y :| y in tail && key(y) == k;
          assert y in t;
        }
      }
      InsertKeepsDistinct(tail, x, le, key);
      InsertPermutes(tail, x, le);
      var rest := Insert(tail, x, le);
      var r := [t[0]] + rest;
      assert key(t[0]) != key(x) by {
        assert t[0] in t;
      }
      forall i, j | 0 <= i < j < |r| ensures key(r[i]) != key(r[j]) {
        if i == 0 {
          assert r[j] == rest[j - 1] && r[j] in multiset(rest);
          if r[j] != x {
            var k :| 0 <= k < |tail| && tail[k] == r[j];
            assert tail[k] == t[k + 1];
          }
        } else {
          assert r[i] == rest[i - 1] && r[j] == rest[j - 1];
        }
      }
    }
  }

  /** Sorting keeps keys pairwise distinct. */
  lemma {:induction false} SortKeepsDistinct(xs: seq<LearnedWord>, le: (string, string) -> bool, key: LearnedWord -> string)
    requires DistinctKeys(xs, key)
    ensures DistinctKeys(SortByWord(xs, le), key)
  {
    if xs != [] {
      var init, last := xs[..|xs| - 1], xs[|xs| - 1];
      assert DistinctKeys(init, key);
      SortKeepsDistinct(init, le, key);
      SortPermutes(init, le);
      SameWordsSameKeys(SortByWord(init, le), init, key);
      forall y | y in init ensures key(y) != key(last) {
        var k :| 0 <= k < |init| && init[k] == y;
        assert xs[k] == y;
      }
      InsertKeepsDistinct(SortByWord(init, le), last, le, key);
    }
  }

  /**
   * `allWords`: scan the stories' learned words in order, keep each lower-cased
   * word text's first word, then sort by word.
   */
  method AllWords(stories: seq<Story>, le: (string, string) -> bool) returns (words: seq<LearnedWord>)
    ensures words == SortByWord(RegistryByText(stories), le)
  {
    var unique: seq<LearnedWord> := [];
    var seenIds: set<string> := {};
    ghost var scanned: seq<LearnedWord> := [];
    for si := 0 to |stories|
      invariant scanned == StoryWords(stories[..si])
      invariant unique == Dedup(scanned, TextKey, {})
      invariant seenIds == KeySet(scanned, TextKey)
    {
      var story := stories[si];
      if story.learnedWords.Some? {
        var ws := story.learnedWords.value;
        for wi := 0 to |ws|
          invariant scanned == StoryWords(stories[..si]) + ws[..wi]
          invariant unique == Dedup(scanned, TextKey, {})
          invariant seenIds == KeySet(scanned, TextKey)
        {
          var w := ws[wi];
          DedupAppend(scanned, w, TextKey, {});
          KeySetAppend(scanned, w, TextKey);
          var lower := Text.ToLower(w.word);
          if lower !in seenIds {
            unique := unique + [w];
            seenIds := seenIds + {lower};
          }
          scanned := scanned + [w];
          assert ws[..wi + 1] == ws[..wi] + [w];
        }
        assert ws[..|ws|] == ws;
      }
      assert stories[..si + 1] == stories[..si] + [story];
      StoryWordsAppend(stories[..si], story);
    }
    assert stories[..|stories|] == stories;
    words := SortByWord(unique, le);
  }

  /**
   * The collection is sorted by word, holds no two words with the same
   * lower-cased text, represents every lower-cased text of every story word,
   * and holds only story words.
   */
  lemma CollectionSortedUniqueComplete(stories: seq<Story>, le: (string, string) -> bool)
    requires TotalPreorder(le)
    ensures SortedByWord(SortByWord(RegistryByText(stories), le), le)
    ensures DistinctKeys(SortByWord(RegistryByText(stories), le), TextKey)
    ensures KeySet(SortByWord(RegistryByText(stories), le), TextKey) == KeySet(StoryWords(stories), TextKey)
    ensures forall w :: w in SortByWord(RegistryByText(stories), le) ==> w in StoryWords(stories)
  {
    var reg := RegistryByText(stories);
    var sorted := SortByWord(reg, le);
    RegistryByTextUniqueAndComplete(stories);
    SortIsSorted(reg, le);
    SortPermutes(reg, le);
    SortKeepsDistinct(reg, le, TextKey);
    SameWordsSameKeys(sorted, reg, TextKey);
    forall w | w in sorted ensures w in StoryWords(stories) {
      assert w in multiset(sorted);
    }
  }

  /** A word matches a search term when its lower-cased text includes the lower-cased term. */
  predicate MatchesSearch(w: LearnedWord, term: string) {
    Text.Includes(Text.ToLower(w.word), Text.ToLower(term))
  }

  /** `filteredWords`: the words that match, in their order. */
  function FilterBySearch(words: seq<LearnedWord>, term: string): seq<LearnedWord>
  {
    if words == [] then []
    else (if MatchesSearch(words[0], term) then [words[0]] else []) + FilterBySearch(words[1..], term)
  }

  /** A word is shown exactly when it is in the collection and its lower-cased text contains the lower-cased term somewhere. */
  lemma {:induction false} FilterMembers(words: seq<LearnedWord>, term: string, w: LearnedWord)
    ensures w in FilterBySearch(words, term) <==>
      w in words && exists k :: Text.OccursAt(Text.ToLower(w.word), Text.ToLower(term), k)
  {
    Text.IncludesAt(Text.ToLower(w.word), Text.ToLower(term));
    if words != [] {
      FilterMembers(words[1..], term, w);
      assert words == [words[0]] + words[1..];
    }
  }

  /** Filtering a concatenation filters each part: the filter keeps the collection's order. */
  lemma {:induction false} FilterAppend(a: seq<LearnedWord>, b: seq<LearnedWord>, term: string)
    ensures FilterBySearch(a + b, term) == FilterBySearch(a, term) + FilterBySearch(b, term)
  {
    if a != [] {
      assert (a + b)[0] == a[0] && (a + b)[1..] == a[1..] + b;
      FilterAppend(a[1..], b, term);
    } else {
      assert a + b == b;
    }
  }

  /** The empty search shows the whole collection. */
  lemma {:induction false} EmptySearchShowsAll(words: seq<LearnedWord>)
    ensures FilterBySearch(words, "") == words
  {
    if words != [] {
      assert Text.ToLower("") == "";
      Text.IncludesEmpty(Text.ToLower(words[0].word));
      EmptySearchShowsAll(words[1..]);
    }
  }

  /** The filtered list of a sorted collection is still sorted. */
  lemma {:induction false} FilterKeepsSorted(words: seq<LearnedWord>, term: string, le: (string, string) -> bool)
    requires SortedByWord(words, le)
    ensures SortedByWord(FilterBySearch(words, term), le)
  {
    if words != [] {
      var tail := words[1..];
      assert SortedByWord(tail, le);
      FilterKeepsSorted(tail, term, le);
      var ft := FilterBySearch(tail, term);
      forall k | 0 <= k < |ft| ensures le(words[0].word, ft[k].word) {
        assert ft[k] in ft;
        FilterMembers(tail, term, ft[k]);
        var m :| 0 <= m < |tail| && tail[m] == ft[k];
        assert tail[m] == words[m + 1];
      }
      if MatchesSearch(words[0], term) {
        var r := [words[0]] + ft;
        forall i, j | 0 <= i < j < |r| ensures le(r[i].word, r[j].word) {
          assert r[j] == ft[j - 1];
          if i > 0 { assert r[i] == ft[i - 1]; }
        }
      }
    }
  }

  /** What the collection area shows. */
  datatype CollectionBody = NoWordsYet | NoMatches(term: string) | Grid(cards: seq<LearnedWord>)

  /** The screen: the count in the header and the collection area. */
  datatype CollectionScreen = CollectionScreen(count: nat, body: CollectionBody)

  function Screen(allWords: seq<LearnedWord>, searchTerm: string): (s: CollectionScreen)
    ensures s.count == |allWords|
    ensures s.body.NoWordsYet? <==> |allWords| == 0
    ensures s.body.NoMatches? <==> |allWords| > 0 && FilterBySearch(allWords, searchTerm) == []
    ensures s.body.NoMatches? ==> s.body.term == searchTerm
    ensures s.body.Grid? ==> s.body.cards == FilterBySearch(allWords, searchTerm) && s.body.cards != []
  {
    var filtered := FilterBySearch(allWords, searchTerm);
    CollectionScreen(|allWords|,
      if |allWords| == 0 then NoWordsYet
      else if |filtered| == 0 then NoMatches(searchTerm)
      else Grid(filtered))
  }

  /** A non-empty collection with the empty search shows every word. */
  lemma EmptySearchShowsGrid(allWords: seq<LearnedWord>)
    requires |allWords| > 0
    ensures Screen(allWords, "").body == Grid(allWords)
  {
    EmptySearchShowsAll(allWords);
  }
}
