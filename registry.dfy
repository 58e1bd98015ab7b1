/**
 * The word registries: the learned words of all stories, scanned story by
 * story and word by word, keeping the first word seen for each key.
 * The memory gym keys words by `id`; the vocabulary list keys them by
 * lower-cased word text. Both components compute their registry with their
 * own loop; this module holds the specification both loops are proved against.
 */
module Registry {
  import opened Types
  import Text

  /** The learned words of all stories in order; a story without `learnedWords` contributes nothing. */
  function StoryWords(stories: seq<Story>): (r: seq<LearnedWord>)
  {
    if stories == [] then [] else StoryWords(stories[..|stories| - 1]) + stories[|stories| - 1].learnedWords.GetOr([])
  }

  lemma StoryWordsAppend(stories: seq<Story>, s: Story)
    ensures StoryWords(stories + [s]) == StoryWords(stories) + s.learnedWords.GetOr([])
  {
    assert (stories + [s])[..|stories|] == stories;
  }

  /** A word appears in the concatenation exactly when it appears in the learned words of some story. */
  lemma {:induction false} StoryWordsMembers(stories: seq<Story>, w: LearnedWord)
    ensures w in StoryWords(stories) <==>
      exists i :: 0 <= i < |stories| && stories[i].learnedWords.Some? && w in stories[i].learnedWords.value
  {
    if stories != [] {
      var init := stories[..|stories| - 1];
      StoryWordsMembers(init, w);
      assert forall i :: 0 <= i < |init| ==> init[i] == stories[i];
    }
  }

  /** No two words share a key. */
  predicate DistinctKeys(ws: seq<LearnedWord>, key: LearnedWord -> string) {
    forall i, j :: 0 <= i < j < |ws| ==> key(ws[i]) != key(ws[j])
  }

  /** The dedup key of the memory gym: the word's id. */
  function IdKey(w: LearnedWord): string { w.id }

  /** The dedup key of the vocabulary list: the lower-cased word text. */
  function TextKey(w: LearnedWord): string { Text.ToLower(w.word) }

  /** The keys of a list of words. */
  function KeySet(xs: seq<LearnedWord>, key: LearnedWord -> string): set<string> {
    set x | x in xs :: key(x)
  }

  lemma KeySetAppend(xs: seq<LearnedWord>, x: LearnedWord, key: LearnedWord -> string)
    ensures KeySet(xs + [x], key) == KeySet(xs, key) + {key(x)}
  {
    var l, r := KeySet(xs + [x], key), KeySet(xs, key) + {key(x)};
    forall k | k in l ensures k in r {
      var y :| y in xs + [x] && key(y) == k;
      if y != x { assert y in xs; }
    }
    forall k | k in r ensures k in l {
      if k != key(x) {
        var y :| y in xs && key(y) == k;
        assert y in xs + [x];
      } else {
        assert x in xs + [x];
      }
    }
  }

  /**
   * The scan the registries run: walk `xs` in order and keep a word unless its
   * key was already seen (`seen` holds the keys seen before `xs`).
   */
  function Dedup(xs: seq<LearnedWord>, key: LearnedWord -> string, seen: set<string>): seq<LearnedWord>
  {
    if xs == [] then []
    else if key(xs[0]) in seen then Dedup(xs[1..], key, seen)
    else [xs[0]] + Dedup(xs[1..], key, seen + {key(xs[0])})
  }

  /** Words in the registry have pairwise distinct keys, none of them seen before. */
  lemma {:induction false} DedupDistinct(xs: seq<LearnedWord>, key: LearnedWord -> string, seen: set<string>)
    ensures forall i :: 0 <= i < |Dedup(xs, key, seen)| ==> key(Dedup(xs, key, seen)[i]) !in seen
    ensures forall i, j :: 0 <= i < j < |Dedup(xs, key, seen)| ==>
      key(Dedup(xs, key, seen)[i]) != key(Dedup(xs, key, seen)[j])
  {
    if xs != [] {
      if key(xs[0]) in seen {
        DedupDistinct(xs[1..], key, seen);
      } else {
        var seen' := seen + {key(xs[0])};
        DedupDistinct(xs[1..], key, seen');
        var r := Dedup(xs, key, seen);
        assert r == [xs[0]] + Dedup(xs[1..], key, seen');
        forall i | 0 < i < |r| ensures key(r[i]) != key(xs[0]) && key(r[i]) !in seen {
          assert r[i] == Dedup(xs[1..], key, seen')[i - 1];
        }
      }
    }
  }

  /** Every key met in the scan and not seen before is represented in the registry, and no other. */
  lemma {:induction false} DedupKeys(xs: seq<LearnedWord>, key: LearnedWord -> string, seen: set<string>)
    ensures KeySet(Dedup(xs, key, seen), key) == KeySet(xs, key) - seen
  {
    if xs != [] {
      var x, rest := xs[0], xs[1..];
      assert xs == [x] + rest;
      if key(x) in seen {
        DedupKeys(rest, key, seen);
        assert KeySet(xs, key) == KeySet(rest, key) + {key(x)} by {
          forall k | k in KeySet(xs, key) ensures k in KeySet(rest, key) + {key(x)} {
            var y :| y in xs && key(y) == k;
            if y != x { assert y in rest; }
          }
        }
      } else {
        var seen' := seen + {key(x)};
        DedupKeys(rest, key, seen');
        var r := Dedup(xs, key, seen);
        assert r == [x] + Dedup(rest, key, seen');
        assert KeySet(r, key) == KeySet(Dedup(rest, key, seen'), key) + {key(x)} by {
          forall k | k in KeySet(r, key) ensures k in KeySet(Dedup(rest, key, seen'), key) + {key(x)} {
            var y :| y in r && key(y) == k;
            if y != x { assert y in Dedup(rest, key, seen'); }
          }
        }
        assert KeySet(xs, key) == KeySet(rest, key) + {key(x)} by {
          forall k | k in KeySet(xs, key) ensures k in KeySet(rest, key) + {key(x)} {
            var y :| y in xs && key(y) == k;
            if y != x { assert y in rest; }
          }
        }
      }
    }
  }

  /** Scanning one more word keeps it exactly when its key is new. */
  lemma {:induction false} DedupAppend(xs: seq<LearnedWord>, x: LearnedWord, key: LearnedWord -> string, seen: set<string>)
    ensures Dedup(xs + [x], key, seen) ==
      Dedup(xs, key, seen) + (if key(x) in seen || key(x) in KeySet(xs, key) then [] else [x])
  {
    if xs == [] {
      assert [x][1..] == [];
    } else {
      var y := xs[0];
      assert (xs + [x])[0] == y && (xs + [x])[1..] == xs[1..] + [x];
      var seen' := if key(y) in seen then seen else seen + {key(y)};
      DedupAppend(xs[1..], x, key, seen');
      assert xs == [y] + xs[1..];
      KeySetAppend([y], x, key);
      assert KeySet(xs, key) == KeySet(xs[1..], key) + {key(y)} by {
        forall k | k in KeySet(xs, key) ensures k in KeySet(xs[1..], key) + {key(y)} {
          var z :| z in xs && key(z) == k;
          if z != y { assert z in xs[1..]; }
        }
      }
    }
  }

  /**
   * The reference definition of the registry: a word is kept exactly when no
   * earlier word in the scan has its key (first occurrence wins).
   */
  function FirstOccurrences(xs: seq<LearnedWord>, key: LearnedWord -> string): seq<LearnedWord>
  {
    if xs == [] then []
    else
      var init, last := xs[..|xs| - 1], xs[|xs| - 1];
      FirstOccurrences(init, key) + (if key(last) in KeySet(init, key) then [] else [last])
  }

  /** The scan computes exactly the first occurrence of every key. */
  lemma {:induction false} DedupIsFirstOccurrences(xs: seq<LearnedWord>, key: LearnedWord -> string)
    ensures Dedup(xs, key, {}) == FirstOccurrences(xs, key)
  {
    if xs != [] {
      var init, last := xs[..|xs| - 1], xs[|xs| - 1];
      assert xs == init + [last];
      DedupIsFirstOccurrences(init, key);
      DedupAppend(init, last, key, {});
    }
  }

  /** The gym's registry: first occurrence of every word id across all stories. */
  function RegistryById(stories: seq<Story>): seq<LearnedWord> {
    Dedup(StoryWords(stories), IdKey, {})
  }

  /** The vocabulary registry before sorting: first occurrence of every lower-cased word. */
  function RegistryByText(stories: seq<Story>): seq<LearnedWord> {
    Dedup(StoryWords(stories), TextKey, {})
  }

  /** No two gym registry entries share an id, and every id of every story is present. */
  lemma RegistryByIdUniqueAndComplete(stories: seq<Story>)
    ensures forall i, j :: 0 <= i < j < |RegistryById(stories)| ==> RegistryById(stories)[i].id != RegistryById(stories)[j].id
    ensures forall w :: w in StoryWords(stories) ==> exists v :: v in RegistryById(stories) && v.id == w.id
    ensures forall v :: v in RegistryById(stories) ==> v in StoryWords(stories)
  {
    var xs := StoryWords(stories);
    DedupDistinct(xs, IdKey, {});
    DedupKeys(xs, IdKey, {});
    DedupSubset(xs, IdKey, {});
    forall w | w in xs ensures exists v :: v in RegistryById(stories) && v.id == w.id {
      assert IdKey(w) in KeySet(xs, IdKey);
      assert IdKey(w) in KeySet(RegistryById(stories), IdKey);
      var v :| v in RegistryById(stories) && IdKey(v) == IdKey(w);
    }
  }

  /** No two vocabulary entries share lower-cased text, and every story word's lower-cased text is present. */
  lemma RegistryByTextUniqueAndComplete(stories: seq<Story>)
    ensures forall i, j :: 0 <= i < j < |RegistryByText(stories)| ==>
      TextKey(RegistryByText(stories)[i]) != TextKey(RegistryByText(stories)[j])
    ensures KeySet(RegistryByText(stories), TextKey) == KeySet(StoryWords(stories), TextKey)
    ensures forall v :: v in RegistryByText(stories) ==> v in StoryWords(stories)
  {
    var xs := StoryWords(stories);
    DedupDistinct(xs, TextKey, {});
    DedupKeys(xs, TextKey, {});
    DedupSubset(xs, TextKey, {});
  }

  /** Every registry entry comes from the scanned words. */
  lemma {:induction false} DedupSubset(xs: seq<LearnedWord>, key: LearnedWord -> string, seen: set<string>)
    ensures forall v :: v in Dedup(xs, key, seen) ==> v in xs
  {
    if xs != [] {
      var seen' := if key(xs[0]) in seen then seen else seen + {key(xs[0])};
      DedupSubset(xs[1..], key, seen');
    }
  }
}
