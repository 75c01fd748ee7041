/**
 * `clean_text` of preprocess.py: lowercase, strip ASCII punctuation, tokenize,
 * drop stop words, stem. The tokenizer, the stop-word set and the stemmer are
 * library objects and enter as the fields of a `Normalizer`.
 */
module Preprocess {
  import opened PyStr

  /** An order-preserving list comprehension `[x for x in s if keep(x)]`. */
  function Filter<T>(s: seq<T>, keep: T -> bool): (r: seq<T>)
    ensures |r| <= |s|
    ensures forall x :: x in r ==> x in s && keep(x)
  {
    if s == [] then [] else (if keep(s[0]) then [s[0]] else []) + Filter(s[1..], keep)
  }

  /** Filtering a concatenation filters each part; so the kept elements keep their order. */
  lemma {:induction false} FilterConcat<T>(a: seq<T>, b: seq<T>, keep: T -> bool)
    ensures Filter(a + b, keep) == Filter(a, keep) + Filter(b, keep)
  {
    if a != [] {
      assert (a + b)[1..] == a[1..] + b;
      FilterConcat(a[1..], b, keep);
    } else {
      assert a + b == b;
    }
  }

  /** A kept element occurs as often in the result as in the input; a dropped one not at all. */
  lemma {:induction false} FilterCounts<T>(s: seq<T>, keep: T -> bool, x: T)
    ensures multiset(Filter(s, keep))[x] == if keep(x) then multiset(s)[x] else 0
  {
    if s != [] {
      FilterCounts(s[1..], keep, x);
      assert s == [s[0]] + s[1..];
    }
  }

  /** A sequence whose every element is kept is its own filtering. */
  lemma {:induction false} FilterKeepsAll<T>(s: seq<T>, keep: T -> bool)
    requires forall x :: x in s ==> keep(x)
    ensures Filter(s, keep) == s
  {
    if s != [] {
      FilterKeepsAll(s[1..], keep);
    }
  }

  /** `string.punctuation`: the 32 ASCII punctuation marks. */
  const Punctuation := "!\"#$%&'()*+,-./:;<=>?@[\\]^_`{|}~"

  predicate IsPunctuation(c: char) { c in Punctuation }

  /** `text.translate(str.maketrans('', '', string.punctuation))`. */
  function RemovePunctuation(text: string): (r: string)
    ensures forall c :: c in r ==> !IsPunctuation(c) && c in text
    ensures forall c :: !IsPunctuation(c) ==> multiset(r)[c] == multiset(text)[c]
  {
    var r := Filter(text, c => !IsPunctuation(c));
    forall c | !IsPunctuation(c) ensures multiset(r)[c] == multiset(text)[c] {
      FilterCounts(text, c => !IsPunctuation(c), c);
    }
    r
  }

  /** Removing punctuation keeps the order of the other characters. */
  lemma RemovePunctuationConcat(a: string, b: string)
    ensures RemovePunctuation(a + b) == RemovePunctuation(a) + RemovePunctuation(b)
  {
    FilterConcat(a, b, c => !IsPunctuation(c));
  }

  /** A single character is dropped exactly when it is punctuation; with the lemma above this fixes the whole result. */
  lemma RemovePunctuationChar(c: char)
    ensures RemovePunctuation([c]) == if IsPunctuation(c) then [] else [c]
  {
    assert [c][1..] == [];
  }

  /** Removing punctuation twice is removing it once. */
  lemma RemovePunctuationIdempotent(text: string)
    ensures RemovePunctuation(RemovePunctuation(text)) == RemovePunctuation(text)
  {
    FilterKeepsAll(RemovePunctuation(text), c => !IsPunctuation(c));
  }

  /** The library objects that `clean_text` calls. */
  datatype Normalizer = Normalizer(
    tokenize: string -> seq<string>,  // nltk's word_tokenize
    stopWords: set<string>,           // the English stop-word corpus
    stem: string -> string)           // PorterStemmer().stem

  /** What `word_tokenize` is given: the lowercased text without punctuation. */
  function TokenizerInput(text: string): (t: string)
    ensures forall c :: c in t ==> !IsUpper(c) && !IsPunctuation(c)
  {
    LowerHasNoUpper(text);
    RemovePunctuation(Lower(text))
  }

  /** `[word for word in tokens if word not in stop_words]`. */
  function StopFilter(tokens: seq<string>, stopWords: set<string>): (r: seq<string>)
    ensures forall w :: w in r ==> w !in stopWords
  {
    Filter(tokens, w => w !in stopWords)
  }

  /** The `filtered` list: tokens of the tokenizer's output that are no stop words. */
  function Filtered(text: string, nlp: Normalizer): (r: seq<string>)
    ensures forall w :: w in r ==> w in nlp.tokenize(TokenizerInput(text)) && w !in nlp.stopWords
  {
    StopFilter(nlp.tokenize(TokenizerInput(text)), nlp.stopWords)
  }

  /** `clean_text(text)`. */
  function CleanText(text: string, nlp: Normalizer): (r: seq<string>)
    ensures |r| == |Filtered(text, nlp)|
    ensures forall i :: 0 <= i < |r| ==> r[i] == nlp.stem(Filtered(text, nlp)[i])
  {
    var filtered := Filtered(text, nlp);
    seq(|filtered|, i requires 0 <= i < |filtered| => nlp.stem(filtered[i]))
  }

  /**
   * `" ".join(clean_text(text))`, the text the vectorizer sees. When no stem is
   * empty or holds whitespace, splitting it gives the stems back.
   */
  function ClassifierInput(text: string, nlp: Normalizer): (r: string)
    ensures SolidWords(CleanText(text, nlp)) ==> Split(r) == CleanText(text, nlp)
  {
    SplitJoin(CleanText(text, nlp));
    Join(" ", CleanText(text, nlp))
  }

  /** The stop-word filter keeps exactly the non-stop-words, each as often as it occurs. */
  lemma StopFilterExact(tokens: seq<string>, stopWords: set<string>, w: string)
    ensures multiset(StopFilter(tokens, stopWords))[w] == if w in stopWords then 0 else multiset(tokens)[w]
  {
    FilterCounts(tokens, w => w !in stopWords, w);
  }

  /** The stop-word filter keeps the order of the tokens it keeps. */
  lemma StopFilterConcat(a: seq<string>, b: seq<string>, stopWords: set<string>)
    ensures StopFilter(a + b, stopWords) == StopFilter(a, stopWords) + StopFilter(b, stopWords)
  {
    FilterConcat(a, b, w => w !in stopWords);
  }

  /** `clean_text` yields at most as many stems as the tokenizer yields tokens. */
  lemma CleanTextLength(text: string, nlp: Normalizer)
    ensures |CleanText(text, nlp)| <= |nlp.tokenize(TokenizerInput(text))|
  {
  }

  /** Lowercasing comes first, so `clean_text` cannot tell `text` from `text.lower()`. */
  lemma CleanTextIgnoresCase(text: string, nlp: Normalizer)
    ensures CleanText(Lower(text), nlp) == CleanText(text, nlp)
  {
    LowerIdempotent(text);
  }
}
