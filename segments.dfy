/**
 * The transcript segment record shared by the transcription, script-matching
 * and output modules. In the source a segment is a dictionary; here it is a
 * record whose optional scoring fields are explicit options.
 */
module Segments {
  import opened Options

  /** One script sentence matched to a segment, with its similarity ratio. */
  datatype SentenceMatch = SentenceMatch(text: string, similarity: real)

  /**
   * A transcript segment: display timecode, recognised text, the interval in
   * milliseconds and its duration, and the fields that scoring attaches.
   */
  datatype Segment = Segment(
    timecode: string,
    text: string,
    startMs: nat,
    endMs: nat,
    durationMs: nat,
    relevanceScore: Option<real>,
    matchedSentences: Option<seq<SentenceMatch>>)

  /** The sort key `x["relevance_score"]`. */
  function RelevanceKey(s: Segment): real {
    s.relevanceScore.GetOr(0.0)
  }

  /** The sort key `x["start_ms"]`. */
  function StartKey(s: Segment): real {
    s.startMs as real
  }

  /** The sort key `x["similarity"]`. */
  function SimilarityKey(m: SentenceMatch): real {
    m.similarity
  }
}
