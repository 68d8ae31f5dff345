/** The lexical relevance score of DocumentQASystem._calculate_relevance_score,
    as a specification over real numbers. The method that computes it with the
    source's nested loops is DocumentQA.DocumentQASystem.CalculateRelevanceScore. */
module Relevance {
  import opened Results
  import opened Text

  /** The stop words dropped from a query (the source keeps them in a set;
      only membership is ever asked). */
  const StopWords: seq<string> := [
    "the", "a", "an", "is", "are", "was", "were", "be", "been",
    "being", "have", "has", "had", "do", "does", "did", "will",
    "would", "could", "should", "may", "might", "must", "can",
    "of", "at", "by", "for", "with", "about", "against", "between",
    "into", "through", "during", "before", "after", "above", "below",
    "to", "from", "up", "down", "in", "out", "on", "off", "over", "under"
  ]

  /** w is one of ws. */
  predicate Listed(w: string, ws: seq<string>)
  {
    ws != [] && (ws[0] == w || Listed(w, ws[1..]))
  }

  /** A query token survives filtering when it is not a stop word and has more than two characters. */
  predicate IsQueryTerm(w: string) {
    !Listed(w, StopWords) && |w| > 2
  }

  /** The tokens of ws that are query terms, in order, duplicates kept. */
  function KeepQueryTerms(ws: seq<string>): (r: seq<string>)
    ensures forall w {:trigger multiset(r)[w]} ::
      multiset(r)[w] == if IsQueryTerm(w) then multiset(ws)[w] else 0
  {
    if ws == [] then []
    else
      assert ws == [ws[0]] + ws[1..];
      (if IsQueryTerm(ws[0]) then [ws[0]] else []) + KeepQueryTerms(ws[1..])
  }

  /** The query terms: lower-cased word tokens of the query that survive filtering. */
  function QueryTerms(query: string): seq<string> {
    KeepQueryTerms(Tokens(Lower(query)))
  }

  /** The partial-match test: the term occurs in the word or the word in the term. */
  predicate IsPartialMatch(term: string, word: string) {
    Contains(word, term) || Contains(term, word)
  }

  /** Counter(words)[term]. */
  function Count(words: seq<string>, term: string): (n: nat)
    ensures n > 0 <==> term in words
  {
    if words == [] then 0
    else Count(words[..|words| - 1], term) + (if words[|words| - 1] == term then 1 else 0)
  }

  /** Count is the multiplicity of the term among the words. */
  lemma {:induction false} CountIsMultiplicity(words: seq<string>, term: string)
    ensures Count(words, term) == multiset(words)[term]
  {
    if words != [] {
      CountIsMultiplicity(words[..|words| - 1], term);
      assert words == words[..|words| - 1] + [words[|words| - 1]];
    }
  }

  /** The number of words that partially match the term. */
  function PartialMatches(term: string, words: seq<string>): (n: nat)
    ensures n > 0 <==> exists w :: w in words && IsPartialMatch(term, w)
  {
    if words == [] then 0
    else
      assert forall w :: w in words <==> w in words[..|words| - 1] || w == words[|words| - 1];
      PartialMatches(term, words[..|words| - 1]) + (if IsPartialMatch(term, words[|words| - 1]) then 1 else 0)
  }

  /** What one query term adds to the raw score: twice its exact count when the
      term occurs in the lower-cased chunk text, plus one half per partial match. */
  function TermScore(term: string, words: seq<string>, text: string): real {
    (if Contains(text, term) then 2.0 * Count(words, term) as real else 0.0)
      + 0.5 * PartialMatches(term, words) as real
  }

  /** The raw score summed over the query terms, in order. */
  function RawScore(terms: seq<string>, words: seq<string>, text: string): (r: real)
    ensures r >= 0.0
  {
    if terms == [] then 0.0
    else RawScore(terms[..|terms| - 1], words, text) + TermScore(terms[|terms| - 1], words, text)
  }

  lemma PartialMatchesStep(term: string, words: seq<string>, j: nat)
    requires j < |words|
    ensures PartialMatches(term, words[..j + 1])
         == PartialMatches(term, words[..j]) + (if IsPartialMatch(term, words[j]) then 1 else 0)
  {
    assert words[..j + 1][..j] == words[..j];
  }

  lemma RawScoreStep(terms: seq<string>, i: nat, words: seq<string>, text: string)
    requires i < |terms|
    ensures RawScore(terms[..i + 1], words, text) == RawScore(terms[..i], words, text) + TermScore(terms[i], words, text)
  {
    assert terms[..i + 1][..i] == terms[..i];
  }

  /** The raw score divided by the number of terms times the number of
      words per hundred, capped at 1.0. */
  function Normalize(raw: real, termCount: nat, wordCount: nat): (r: real)
    requires termCount > 0 && wordCount > 0
    ensures r <= 1.0
    ensures raw >= 0.0 ==> r >= 0.0
    ensures r < 1.0 ==> r * (termCount as real * wordCount as real) == 100.0 * raw
  {
    var score := raw / (termCount as real * (wordCount as real / 100.0));
    if score <= 1.0 then score else 1.0
  }

  /** The relevance score of a chunk for a query. A query with no terms scores 0;
      a chunk without word tokens makes the normalising divisor zero, which the
      source lets surface as ZeroDivisionError. */
  function RelevanceScore(query: string, chunkText: string): (r: Result<real>)
    ensures QueryTerms(query) == [] ==> r == Ok(0.0)
    ensures r.Err? <==> QueryTerms(query) != [] && Tokens(Lower(chunkText)) == []
    ensures r.Err? ==> r.error == ZeroDivisionError
    ensures r.Ok? ==> 0.0 <= r.value <= 1.0
  {
    var terms := QueryTerms(query);
    if terms == [] then Ok(0.0)
    else
      var lower := Lower(chunkText);
      var words := Tokens(lower);
      if |words| == 0 then Err(ZeroDivisionError)
      else
        Ok(Normalize(RawScore(terms, words, lower), |terms|, |words|))
  }

  /** Some query term partially matches some chunk word. */
  predicate HasPartialMatch(terms: seq<string>, words: seq<string>) {
    exists t, w :: t in terms && w in words && IsPartialMatch(t, w)
  }

  lemma {:induction false} TermScorePositive(term: string, words: seq<string>, text: string)
    ensures TermScore(term, words, text) > 0.0 <==> exists w :: w in words && IsPartialMatch(term, w)
  {
    if Count(words, term) > 0 {
      ContainsSelf(term);
      assert IsPartialMatch(term, term);
    }
  }

  lemma {:induction false} RawScorePositive(terms: seq<string>, words: seq<string>, text: string)
    ensures RawScore(terms, words, text) > 0.0 <==> HasPartialMatch(terms, words)
  {
    if terms != [] {
      var init, last := terms[..|terms| - 1], terms[|terms| - 1];
      RawScorePositive(init, words, text);
      TermScorePositive(last, words, text);
      assert forall t :: t in terms <==> t in init || t == last;
    }
  }

  /** A chunk scores above zero exactly when some query term and some chunk
      word match partially; in particular a chunk sharing no such word with the
      query scores 0. */
  lemma ScorePositiveIff(query: string, chunkText: string)
    requires RelevanceScore(query, chunkText).Ok?
    ensures RelevanceScore(query, chunkText).value > 0.0
      <==> HasPartialMatch(QueryTerms(query), Tokens(Lower(chunkText)))
  {
    var terms, words := QueryTerms(query), Tokens(Lower(chunkText));
    if terms != [] {
      RawScorePositive(terms, words, Lower(chunkText));
    }
  }

  /** The exact-match guard `term in chunk_lower` never hides a count: a term
      counted among the chunk's tokens occurs in the chunk text. So each term
      adds exactly twice its exact count plus one half per partial match. */
  lemma TermScoreIsExactPlusPartial(term: string, chunkLower: string)
    ensures var words := Tokens(chunkLower);
      TermScore(term, words, chunkLower)
        == 2.0 * Count(words, term) as real + 0.5 * PartialMatches(term, words) as real
  {
    if Count(Tokens(chunkLower), term) > 0 {
      TokenOccursIn(chunkLower, term);
    }
  }
}
