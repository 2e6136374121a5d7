/**
 * The script matcher: a reference script split into sentences and keywords,
 * and the scoring of transcript segments against it — keyword overlap plus the
 * best sentence similarity — with the fallback regex tokenizers and stopword
 * list.
 */
module ScriptMatching {
  import opened Options
  import opened Text
  import opened Sorting
  import opened Segments
  import opened Similarity

  /** The stopwords used when no natural-language toolkit is available. */
  const FallbackStopwords: set<string> := {
    "a", "an", "the", "and", "or", "but", "if", "because",
    "as", "what", "when", "where", "how", "why", "which",
    "who", "whom", "this", "that", "these", "those", "is",
    "are", "was", "were", "be", "been", "being", "have",
    "has", "had", "do", "does", "did", "to", "at", "by",
    "for", "with", "about", "against", "between", "into",
    "through", "during", "before", "after", "above", "below",
    "from", "up", "down", "in", "out", "on", "off", "over",
    "under", "again", "further", "then", "once", "here",
    "there", "all", "any", "both", "each", "few", "more",
    "most", "other", "some", "such", "no", "nor", "not",
    "only", "own", "same", "so", "than", "too", "very",
    "can", "will", "just", "should", "now"}

  /** A similarity ratio must exceed this for a sentence to count as a match. */
  const MatchThreshold: real := 0.3

  /** The fallback word tokenizer: `re.findall(r'\b\w+\b', text.lower())`. */
  function TokenizeWords(text: string): seq<string> {
    Words(Lower(text))
  }

  /** The fallback sentence tokenizer: `re.split(r'(?<=[.!?])\s+', text)`. */
  function TokenizeSentences(text: string): seq<string> {
    SplitSentences(text)
  }

  /** The keywords of a text: its lower-cased word tokens that are alphanumeric and not stopwords. */
  function Keywords(text: string, stopwords: set<string>): set<string> {
    set w | w in TokenizeWords(Lower(text)) && IsAlnum(w) && w !in stopwords
  }

  /** What the matcher holds about its reference script. */
  datatype ReferenceScript = ReferenceScript(text: string, sentences: seq<string>, keywords: set<string>)

  /** The answer of `match_transcript_segment`. */
  datatype MatchResult = MatchResult(relevanceScore: real, matchedSentences: seq<SentenceMatch>)

  /** The script sentences whose similarity to the lower-cased segment text exceeds the threshold, in script order. */
  function Candidates(sentences: seq<string>, lowered: string, ratio: (string, string) -> real): seq<SentenceMatch>
    decreases |sentences|
  {
    if sentences == [] then []
    else
      var n := |sentences| - 1;
      var similarity := ratio(lowered, Lower(sentences[n]));
      Candidates(sentences[..n], lowered, ratio)
      + (if similarity > MatchThreshold then [SentenceMatch(sentences[n], similarity)] else [])
  }

  function Similarities(matches: seq<SentenceMatch>): seq<real> {
    seq(|matches|, i requires 0 <= i < |matches| => matches[i].similarity)
  }

  /** `max(xs)`. */
  function MaxOf(xs: seq<real>): (m: real)
    requires xs != []
    ensures m in xs && forall x :: x in xs ==> x <= m
    decreases |xs|
  {
    if |xs| == 1 then xs[0]
    else
      var t := MaxOf(xs[1..]);
      assert xs == [xs[0]] + xs[1..];
      if xs[0] >= t then xs[0] else t
  }

  /** `matched_sentences[:3]`. */
  function TopThree(s: seq<SentenceMatch>): seq<SentenceMatch> {
    if |s| > 3 then s[..3] else s
  }

  /** The result `match_transcript_segment` computes for a segment text. */
  function MatchSegment(script: ReferenceScript, stopwords: set<string>, ratio: (string, string) -> real, text: string): MatchResult {
    if script.text == "" || text == "" then MatchResult(0.0, [])
    else
      var keywordScore := Jaccard(script.keywords, Keywords(text, stopwords));
      var candidates := Candidates(script.sentences, Lower(text), ratio);
      var relevance :=
        if candidates != [] then 0.6 * keywordScore + 0.4 * MaxOf(Similarities(candidates))
        else keywordScore * 0.6;
      MatchResult(relevance, TopThree(SortDescending(candidates, SimilarityKey)))
  }

  /** A segment with the result of matching its text attached. */
  function WithMatch(seg: Segment, m: MatchResult): Segment {
    seg.(relevanceScore := Some(m.relevanceScore), matchedSentences := Some(m.matchedSentences))
  }

  /** The scored copies `score_transcript_segments` returns. */
  function ScoreSegments(script: ReferenceScript, stopwords: set<string>, ratio: (string, string) -> real,
                         segments: seq<Segment>): seq<Segment>
  {
    seq(|segments|, i requires 0 <= i < |segments| => WithMatch(segments[i], MatchSegment(script, stopwords, ratio, segments[i].text)))
  }

  /** Every segment carries a relevance score. */
  predicate AllScored(segments: seq<Segment>) {
    forall i :: 0 <= i < |segments| ==> segments[i].relevanceScore.Some?
  }

  /** What `sort_segments_by_relevance` sorts: the scored copies when the first segment has no score. */
  function ToSort(script: ReferenceScript, stopwords: set<string>, ratio: (string, string) -> real,
                  segments: seq<Segment>): seq<Segment>
  {
    if segments != [] && segments[0].relevanceScore.None? then ScoreSegments(script, stopwords, ratio, segments) else segments
  }

  /**
   * `sort_segments_by_relevance`: the stable sort by score, largest first, of
   * what it sorts; None when one of those has no score (the key lookup raises
   * `KeyError`).
   */
  function SortByRelevance(script: ReferenceScript, stopwords: set<string>, ratio: (string, string) -> real,
                           segments: seq<Segment>): Option<seq<Segment>>
  {
    var toSort := ToSort(script, stopwords, ratio, segments);
    if AllScored(toSort) then Some(SortDescending(toSort, RelevanceKey)) else None
  }

  class ScriptMatcher {
    /** The stopword set chosen at construction. */
    const stopwords: set<string>
    /** `difflib.SequenceMatcher(None, a, b).ratio()`. */
    const ratio: (string, string) -> real

    var referenceScript: string
    var scriptSentences: seq<string>
    var scriptKeywords: set<string>

    /** A matcher with no script, using the fallback tokenizers and stopwords. */
    constructor (ratio: (string, string) -> real)
      ensures this.ratio == ratio && stopwords == FallbackStopwords
      ensures referenceScript == "" && scriptSentences == [] && scriptKeywords == {}
    {
      this.ratio := ratio;
      stopwords := FallbackStopwords;
      referenceScript := "";
      scriptSentences := [];
      scriptKeywords := {};
    }

    function Script(): ReferenceScript
      reads this
    {
      ReferenceScript(referenceScript, scriptSentences, scriptKeywords)
    }

    /** Stores the script, its sentences and its keywords; answers their counts. */
    method SetReferenceScript(scriptText: string) returns (sentenceCount: nat, keywordCount: nat)
      modifies this
      ensures referenceScript == scriptText
      ensures scriptSentences == TokenizeSentences(scriptText)
      ensures scriptKeywords == Keywords(scriptText, stopwords)
      ensures sentenceCount == |scriptSentences| && keywordCount == |scriptKeywords|
    {
      referenceScript := scriptText;
      scriptSentences := TokenizeSentences(scriptText);
      scriptKeywords := Keywords(scriptText, stopwords);
      sentenceCount := |scriptSentences|;
      keywordCount := |scriptKeywords|;
    }

    /** The loop of `match_transcript_segment`: the matching sentences in script order, and their ratios. */
    method CollectMatches(lowered: string) returns (matched: seq<SentenceMatch>, sentenceScores: seq<real>)
      ensures matched == Candidates(scriptSentences, lowered, ratio)
      ensures sentenceScores == Similarities(matched)
    {
      matched := [];
      sentenceScores := [];
      var i := 0;
      while i < |scriptSentences|
        invariant 0 <= i <= |scriptSentences|
        invariant matched == Candidates(scriptSentences[..i], lowered, ratio)
        invariant sentenceScores == Similarities(matched)
      {
        var similarity := ratio(lowered, Lower(scriptSentences[i]));
        CandidatesStep(scriptSentences, lowered, ratio, i);
        if similarity > MatchThreshold {
          SimilaritiesAppend(matched, SentenceMatch(scriptSentences[i], similarity));
          matched := matched + [SentenceMatch(scriptSentences[i], similarity)];
          sentenceScores := sentenceScores + [similarity];
        }
        i := i + 1;
      }
      assert scriptSentences[..i] == scriptSentences;
    }

    /** `match_transcript_segment`. */
    method MatchTranscriptSegment(segmentText: string) returns (result: MatchResult)
      ensures result == MatchSegment(Script(), stopwords, ratio, segmentText)
    {
      if referenceScript == "" || segmentText == "" {
        return MatchResult(0.0, []);
      }
      var segmentKeywords := Keywords(segmentText, stopwords);
      var keywordScore := Jaccard(scriptKeywords, segmentKeywords);
      var matched, sentenceScores := CollectMatches(Lower(segmentText));
      matched := SortDescending(matched, SimilarityKey);
      matched := TopThree(matched);
      var relevanceScore;
      if sentenceScores != [] {
        relevanceScore := 0.6 * keywordScore + 0.4 * MaxOf(sentenceScores);
      } else {
        relevanceScore := keywordScore * 0.6;
      }
      result := MatchResult(relevanceScore, matched);
    }

    /** `score_transcript_segments`: a scored copy of every segment, in order. */
    method ScoreTranscriptSegments(segments: seq<Segment>) returns (scored: seq<Segment>)
      ensures scored == ScoreSegments(Script(), stopwords, ratio, segments)
    {
      scored := [];
      var i := 0;
      while i < |segments|
        invariant 0 <= i <= |segments|
        invariant scored == ScoreSegments(Script(), stopwords, ratio, segments[..i])
      {
        var m := MatchTranscriptSegment(segments[i].text);
        scored := scored + [WithMatch(segments[i], m)];
        i := i + 1;
      }
      assert segments[..i] == segments;
    }

    /** `sort_segments_by_relevance`. */
    method SortSegmentsByRelevance(segments: seq<Segment>) returns (sorted: Option<seq<Segment>>)
      ensures sorted == SortByRelevance(Script(), stopwords, ratio, segments)
    {
      var toSort := segments;
      if segments != [] && segments[0].relevanceScore.None? {
        toSort := ScoreTranscriptSegments(segments);
      }
      assert toSort == ToSort(Script(), stopwords, ratio, segments);
      var i := 0;
      while i < |toSort|
        invariant 0 <= i <= |toSort|
        invariant forall j :: 0 <= j < i ==> toSort[j].relevanceScore.Some?
      {
        if toSort[i].relevanceScore.None? {
          return None;
        }
        i := i + 1;
      }
      sorted := Some(SortDescending(toSort, RelevanceKey));
    }
  }

  // ---------------------------------------------------------------------------
  // Properties
  // ---------------------------------------------------------------------------

  /**
   * The keywords are exactly the word tokens of the lower-cased text that hold
   * no underscore and are not stopwords; none holds an upper-case letter.
   */
  lemma KeywordsAreWords(text: string, stopwords: set<string>)
    ensures forall w :: w in Keywords(text, stopwords) <==> w in WordSet(text) && '_' !in w && w !in stopwords
    ensures forall w :: w in Keywords(text, stopwords) ==> HasNoUpper(w)
  {
    LowerIdempotent(text);
    LowerHasNoUpper(text);
    WordsAreRuns(Lower(text));
    forall w | w in WordSet(text) && '_' !in w ensures IsAlnum(w) {
      forall i | 0 <= i < |w| ensures IsAlnumChar(w[i]) {
        assert IsWordChar(w[i]);
      }
    }
    forall w | w in Keywords(text, stopwords) ensures HasNoUpper(w) {
      forall i | 0 <= i < |w| ensures !IsUpper(w[i]) {
        assert w[i] in Lower(text);
      }
    }
  }

  /** A text made only of stopwords has no keywords. */
  lemma StopwordsOnlyHaveNoKeywords(text: string, stopwords: set<string>)
    requires forall w :: w in TokenizeWords(text) ==> w in stopwords
    ensures Keywords(text, stopwords) == {}
  {
    LowerIdempotent(text);
  }

  /** One more script sentence adds its match when its ratio exceeds the threshold. */
  lemma CandidatesStep(sentences: seq<string>, lowered: string, ratio: (string, string) -> real, i: nat)
    requires i < |sentences|
    ensures var similarity := ratio(lowered, Lower(sentences[i]));
      Candidates(sentences[..i + 1], lowered, ratio)
        == Candidates(sentences[..i], lowered, ratio)
         + (if similarity > MatchThreshold then [SentenceMatch(sentences[i], similarity)] else [])
  {
    assert sentences[..i + 1][..i] == sentences[..i];
  }

  lemma SimilaritiesAppend(matches: seq<SentenceMatch>, m: SentenceMatch)
    ensures Similarities(matches + [m]) == Similarities(matches) + [m.similarity]
  {
  }

  /** Every candidate is a script sentence scoring above the threshold, with its own ratio. */
  lemma {:induction false} CandidatesSound(sentences: seq<string>, lowered: string, ratio: (string, string) -> real)
    ensures forall m :: m in Candidates(sentences, lowered, ratio) ==>
      m.text in sentences && m.similarity == ratio(lowered, Lower(m.text)) && m.similarity > MatchThreshold
    decreases |sentences|
  {
    if sentences != [] {
      var n := |sentences| - 1;
      CandidatesSound(sentences[..n], lowered, ratio);
      assert forall x :: x in sentences[..n] ==> x in sentences;
    }
  }

  /** Every script sentence scoring above the threshold is a candidate. */
  lemma {:induction false} CandidatesComplete(sentences: seq<string>, lowered: string, ratio: (string, string) -> real, i: nat)
    requires i < |sentences| && ratio(lowered, Lower(sentences[i])) > MatchThreshold
    ensures SentenceMatch(sentences[i], ratio(lowered, Lower(sentences[i]))) in Candidates(sentences, lowered, ratio)
    decreases |sentences|
  {
    var n := |sentences| - 1;
    if i < n {
      CandidatesComplete(sentences[..n], lowered, ratio, i);
      assert sentences[..n][i] == sentences[i];
    }
  }

  /**
   * The matched sentences are at most three script sentences, each scoring
   * above the threshold with its own ratio; they are the best-scoring
   * candidates, largest first, ties in script order.
   */
  lemma MatchedSentences(script: ReferenceScript, stopwords: set<string>, ratio: (string, string) -> real, text: string)
    ensures var r := MatchSegment(script, stopwords, ratio, text);
      && |r.matchedSentences| <= 3
      && (forall m :: m in r.matchedSentences ==>
            m.text in script.sentences && m.similarity == ratio(Lower(text), Lower(m.text)) && m.similarity > MatchThreshold)
      && (script.text != "" && text != "" ==>
            IsTopOfStableSort(Candidates(script.sentences, Lower(text), ratio), r.matchedSentences, SimilarityKey))
  {
    if script.text != "" && text != "" {
      var c := Candidates(script.sentences, Lower(text), ratio);
      var sorted := SortDescending(c, SimilarityKey);
      SortDescendingCorrect(c, SimilarityKey);
      CandidatesSound(script.sentences, Lower(text), ratio);
      var n := if |sorted| > 3 then 3 else |sorted|;
      assert TopThree(sorted) == sorted[..n];
      PrefixOfStableSort(c, sorted, SimilarityKey, n);
      forall m | m in TopThree(sorted) ensures m in c {
        assert m in multiset(sorted);
      }
    }
  }

  /** As many sentences are matched as there are candidates, up to three. */
  lemma MatchedCount(script: ReferenceScript, stopwords: set<string>, ratio: (string, string) -> real, text: string)
    requires script.text != "" && text != ""
    ensures var c := |Candidates(script.sentences, Lower(text), ratio)|;
      |MatchSegment(script, stopwords, ratio, text).matchedSentences| == if c < 3 then c else 3
  {
    SortDescendingCorrect(Candidates(script.sentences, Lower(text), ratio), SimilarityKey);
  }

  /** An empty script or an empty segment text scores 0 with no matches. */
  lemma EmptyMatch(script: ReferenceScript, stopwords: set<string>, ratio: (string, string) -> real, text: string)
    requires script.text == "" || text == ""
    ensures MatchSegment(script, stopwords, ratio, text) == MatchResult(0.0, [])
  {
  }

  /** The first sentence of the sorted candidates has the largest similarity. */
  lemma BestMatchFirst(c: seq<SentenceMatch>)
    requires c != []
    ensures SortDescending(c, SimilarityKey) != []
    ensures SortDescending(c, SimilarityKey)[0].similarity == MaxOf(Similarities(c))
  {
    var sorted := SortDescending(c, SimilarityKey);
    SortDescendingCorrect(c, SimilarityKey);
    HeadIsMaximal(c, sorted, SimilarityKey);
    var best := MaxOf(Similarities(c));
    var k :| 0 <= k < |c| && Similarities(c)[k] == best;
    assert c[k] in c;
    assert sorted[0] in multiset(c);
    var j :| 0 <= j < |c| && c[j] == sorted[0];
    assert Similarities(c)[j] == sorted[0].similarity;
    assert Similarities(c)[j] in Similarities(c);
  }

  /**
   * The score is 60% of the keyword overlap plus 40% of the best match's
   * similarity, and the best match is the first matched sentence.
   */
  lemma ScoreFromBestMatch(script: ReferenceScript, stopwords: set<string>, ratio: (string, string) -> real, text: string)
    requires script.text != "" && text != ""
    ensures var r := MatchSegment(script, stopwords, ratio, text);
      var kw := Jaccard(script.keywords, Keywords(text, stopwords));
      r.relevanceScore == if r.matchedSentences == [] then 0.6 * kw else 0.6 * kw + 0.4 * r.matchedSentences[0].similarity
  {
    var c := Candidates(script.sentences, Lower(text), ratio);
    SortDescendingPermutes(c, SimilarityKey);
    if c != [] {
      BestMatchFirst(c);
      var sorted := SortDescending(c, SimilarityKey);
      assert TopThree(sorted)[0] == sorted[0];
    }
  }

  /** With a ratio in [0, 1] the relevance score lies in [0, 1]. */
  lemma ScoreBounds(script: ReferenceScript, stopwords: set<string>, ratio: (string, string) -> real, text: string)
    requires forall a, b :: ratio(a, b) <= 1.0
    ensures 0.0 <= MatchSegment(script, stopwords, ratio, text).relevanceScore <= 1.0
  {
    if script.text != "" && text != "" {
      var kw := Jaccard(script.keywords, Keywords(text, stopwords));
      JaccardBounds(script.keywords, Keywords(text, stopwords));
      var c := Candidates(script.sentences, Lower(text), ratio);
      if c != [] {
        CandidatesSound(script.sentences, Lower(text), ratio);
        var best := MaxOf(Similarities(c));
        var k :| 0 <= k < |c| && Similarities(c)[k] == best;
        assert c[k] in c;
      }
    }
  }

  /** The keyword overlap does not depend on which side is the script. */
  lemma KeywordScoreSymmetric(script: ReferenceScript, stopwords: set<string>, text: string)
    ensures Jaccard(script.keywords, Keywords(text, stopwords)) == Jaccard(Keywords(text, stopwords), script.keywords)
  {
    JaccardSymmetric(script.keywords, Keywords(text, stopwords));
  }

  /**
   * Batch scoring keeps length and order; each element is its segment with
   * only the score and the matched sentences replaced, by that segment's own
   * match.
   */
  lemma ScoreSegmentsShape(script: ReferenceScript, stopwords: set<string>, ratio: (string, string) -> real, segments: seq<Segment>)
    ensures var scored := ScoreSegments(script, stopwords, ratio, segments);
      && |scored| == |segments|
      && forall i :: 0 <= i < |segments| ==>
           && scored[i].(relevanceScore := segments[i].relevanceScore, matchedSentences := segments[i].matchedSentences) == segments[i]
           && scored[i].relevanceScore == Some(MatchSegment(script, stopwords, ratio, segments[i].text).relevanceScore)
  {
  }

  /** Scored copies all carry a score. */
  lemma ScoreSegmentsAllScored(script: ReferenceScript, stopwords: set<string>, ratio: (string, string) -> real, segments: seq<Segment>)
    ensures AllScored(ScoreSegments(script, stopwords, ratio, segments))
  {
  }

  /**
   * Sorting by relevance: segments are scored first when the first has no
   * score; the outcome is the stable largest-first sort of what was sorted,
   * and it fails exactly when the first segment has a score but a later one
   * does not.
   */
  lemma SortByRelevanceCorrect(script: ReferenceScript, stopwords: set<string>, ratio: (string, string) -> real, segments: seq<Segment>)
    ensures var r := SortByRelevance(script, stopwords, ratio, segments);
      && (r.None? <==> segments != [] && segments[0].relevanceScore.Some? && !AllScored(segments))
      && (r.Some? ==> IsStableSortDescending(ToSort(script, stopwords, ratio, segments), r.value, RelevanceKey)
                      && |r.value| == |segments|)
  {
    var toSort := ToSort(script, stopwords, ratio, segments);
    ScoreSegmentsAllScored(script, stopwords, ratio, segments);
    assert |toSort| == |segments|;
    SortDescendingCorrect(toSort, RelevanceKey);
  }

  /** Segments that all carry scores are not rescored: their own scores decide the order. */
  lemma ScoredSegmentsKeepScores(script: ReferenceScript, stopwords: set<string>, ratio: (string, string) -> real, segments: seq<Segment>)
    requires AllScored(segments)
    ensures SortByRelevance(script, stopwords, ratio, segments) == Some(SortDescending(segments, RelevanceKey))
  {
  }
}
