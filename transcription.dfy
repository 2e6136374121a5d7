/**
 * The audio processor: assembling timecoded transcript segments from the
 * recording's non-silent ranges and the recogniser's answers
 * (`transcribe_audio`), and selecting the up-sots — filter by duration, sort
 * chronologically or by relevance to a reference script, cap the count
 * (`get_up_sots`).
 */
module Transcription {
  import opened Options
  import opened Text
  import opened Sorting
  import opened Segments
  import opened Similarity
  import opened Timecode

  // ---------------------------------------------------------------------------
  // transcribe_audio
  // ---------------------------------------------------------------------------

  /** A non-silent range of the recording, in milliseconds. */
  datatype Range = Range(startMs: nat, endMs: nat)

  /** The recogniser's answer for one chunk. */
  datatype Recognition = Recognized(text: string) | UnknownValue | RequestError

  /** Every range ends no earlier than it starts. */
  predicate Proper(ranges: seq<Range>) {
    forall i :: 0 <= i < |ranges| ==> ranges[i].startMs <= ranges[i].endMs
  }

  /** The ranges start in strictly increasing order, as silence detection yields them. */
  predicate Chronological(ranges: seq<Range>) {
    forall i, j :: 0 <= i < j < |ranges| ==> ranges[i].startMs < ranges[j].startMs
  }

  /** A range becomes a segment only when the recogniser returned non-empty text. */
  predicate Kept(o: Recognition) {
    o.Recognized? && o.text != ""
  }

  /** The segment record built for a range and its recognised text. */
  function SegmentOf(r: Range, text: string): Segment
    requires r.startMs <= r.endMs
  {
    Segment(DisplayTimecode(r.startMs), text, r.startMs, r.endMs, r.endMs - r.startMs, None, None)
  }

  /** The segments produced from the ranges and outcomes, in range order. */
  function Assemble(ranges: seq<Range>, outcomes: seq<Recognition>): seq<Segment>
    requires |outcomes| == |ranges| && Proper(ranges)
    decreases |ranges|
  {
    if ranges == [] then []
    else
      var n := |ranges| - 1;
      Assemble(ranges[..n], outcomes[..n])
      + (if Kept(outcomes[n]) then [SegmentOf(ranges[n], outcomes[n].text)] else [])
  }

  function Texts(segments: seq<Segment>): seq<string> {
    seq(|segments|, i requires 0 <= i < |segments| => segments[i].text)
  }

  /**
   * The segment-building loop of `transcribe_audio`: `outcomes[i]` is the
   * recogniser's answer for `ranges[i]`.
   */
  method TranscribeAudio(ranges: seq<Range>, outcomes: seq<Recognition>)
    returns (segments: seq<Segment>, fullTranscript: string)
    requires |outcomes| == |ranges| && Proper(ranges)
    ensures segments == Assemble(ranges, outcomes)
    ensures fullTranscript == Join(Texts(segments), ' ')
  {
    segments := [];
    var i := 0;
    while i < |ranges|
      invariant 0 <= i <= |ranges|
      invariant segments == Assemble(ranges[..i], outcomes[..i])
    {
      assert ranges[..i + 1][..i] == ranges[..i] && outcomes[..i + 1][..i] == outcomes[..i];
      match outcomes[i] {
        case Recognized(text) =>
          if text != "" {
            segments := segments + [SegmentOf(ranges[i], text)];
          }
        case UnknownValue =>
        case RequestError =>
      }
      i := i + 1;
    }
    assert ranges[..i] == ranges && outcomes[..i] == outcomes;
    fullTranscript := Join(Texts(segments), ' ');
  }

  lemma ProperSlice(ranges: seq<Range>, i: nat, j: nat)
    requires Proper(ranges) && i <= j <= |ranges|
    ensures Proper(ranges[i..j])
  {
    forall k | 0 <= k < j - i ensures ranges[i..j][k].startMs <= ranges[i..j][k].endMs {
      assert ranges[i..j][k] == ranges[i + k];
    }
  }

  /** Assembling two runs of ranges one after the other concatenates their segments. */
  lemma {:induction false} AssembleAppend(r1: seq<Range>, o1: seq<Recognition>, r2: seq<Range>, o2: seq<Recognition>)
    requires |o1| == |r1| && |o2| == |r2| && Proper(r1) && Proper(r2)
    ensures Proper(r1 + r2)
    ensures Assemble(r1 + r2, o1 + o2) == Assemble(r1, o1) + Assemble(r2, o2)
    decreases |r2|
  {
    assert forall k :: 0 <= k < |r1 + r2| ==> (r1 + r2)[k] == if k < |r1| then r1[k] else r2[k - |r1|];
    if r2 == [] {
      assert r1 + r2 == r1 && o1 + o2 == o1;
    } else {
      var n := |r2| - 1;
      var r, o := r1 + r2, o1 + o2;
      assert r[..|r| - 1] == r1 + r2[..n] && o[..|o| - 1] == o1 + o2[..n];
      ProperSlice(r2, 0, n);
      AssembleAppend(r1, o1, r2[..n], o2[..n]);
      assert r[|r| - 1] == r2[n] && o[|o| - 1] == o2[n];
    }
  }

  /** The segments of a run of ranges are those before `i`, that of `i`, and those after. */
  lemma AssembleAt(ranges: seq<Range>, outcomes: seq<Recognition>, i: nat)
    requires |outcomes| == |ranges| && Proper(ranges) && i < |ranges|
    ensures Proper(ranges[..i]) && Proper(ranges[i + 1..])
    ensures Assemble(ranges, outcomes)
      == Assemble(ranges[..i], outcomes[..i])
       + (if Kept(outcomes[i]) then [SegmentOf(ranges[i], outcomes[i].text)] else [])
       + Assemble(ranges[i + 1..], outcomes[i + 1..])
  {
    ProperSlice(ranges, 0, i);
    ProperSlice(ranges, 0, i + 1);
    ProperSlice(ranges, i + 1, |ranges|);
    assert ranges == ranges[..i + 1] + ranges[i + 1..] && outcomes == outcomes[..i + 1] + outcomes[i + 1..];
    AssembleAppend(ranges[..i + 1], outcomes[..i + 1], ranges[i + 1..], outcomes[i + 1..]);
    assert ranges[..i + 1][..i] == ranges[..i] && outcomes[..i + 1][..i] == outcomes[..i];
  }

  /**
   * A failed recognition (no answer, a request error, or empty text) drops
   * that range's segment and nothing else: the segments are those of the
   * ranges before it followed by those of the ranges after it.
   */
  lemma RecognitionFailureIsLocal(ranges: seq<Range>, outcomes: seq<Recognition>, i: nat)
    requires |outcomes| == |ranges| && Proper(ranges) && i < |ranges| && !Kept(outcomes[i])
    ensures Proper(ranges[..i]) && Proper(ranges[i + 1..])
    ensures Assemble(ranges, outcomes)
      == Assemble(ranges[..i], outcomes[..i]) + Assemble(ranges[i + 1..], outcomes[i + 1..])
  {
    AssembleAt(ranges, outcomes, i);
  }

  /**
   * Every segment comes from a range whose recognised text is non-empty: the
   * text is that text, the duration is the range's length, the timecode is
   * the display timecode of its start, and no score is attached yet.
   */
  lemma {:induction false} AssembleSound(ranges: seq<Range>, outcomes: seq<Recognition>)
    requires |outcomes| == |ranges| && Proper(ranges)
    ensures forall seg :: seg in Assemble(ranges, outcomes) ==>
      && seg.text != ""
      && seg.durationMs == seg.endMs - seg.startMs
      && seg.timecode == DisplayTimecode(seg.startMs)
      && seg.relevanceScore.None? && seg.matchedSentences.None?
      && exists i :: 0 <= i < |ranges| && Kept(outcomes[i]) && seg == SegmentOf(ranges[i], outcomes[i].text)
    decreases |ranges|
  {
    if ranges != [] {
      var n := |ranges| - 1;
      ProperSlice(ranges, 0, n);
      AssembleSound(ranges[..n], outcomes[..n]);
      forall seg | seg in Assemble(ranges[..n], outcomes[..n])
        ensures exists i :: 0 <= i < |ranges| && Kept(outcomes[i]) && seg == SegmentOf(ranges[i], outcomes[i].text)
      {
        var i :| 0 <= i < n && Kept(outcomes[..n][i]) && seg == SegmentOf(ranges[..n][i], outcomes[..n][i].text);
        assert ranges[..n][i] == ranges[i] && outcomes[..n][i] == outcomes[i];
      }
    }
  }

  /** Every range whose recognised text is non-empty yields its segment. */
  lemma AssembleComplete(ranges: seq<Range>, outcomes: seq<Recognition>, i: nat)
    requires |outcomes| == |ranges| && Proper(ranges) && i < |ranges| && Kept(outcomes[i])
    ensures SegmentOf(ranges[i], outcomes[i].text) in Assemble(ranges, outcomes)
  {
    AssembleAt(ranges, outcomes, i);
  }

  /** Chronological ranges give segments in chronological order. */
  lemma {:induction false} AssembleChronological(ranges: seq<Range>, outcomes: seq<Recognition>)
    requires |outcomes| == |ranges| && Proper(ranges) && Chronological(ranges)
    ensures forall a, b :: 0 <= a < b < |Assemble(ranges, outcomes)| ==>
      Assemble(ranges, outcomes)[a].startMs < Assemble(ranges, outcomes)[b].startMs
    decreases |ranges|
  {
    if ranges != [] {
      var n := |ranges| - 1;
      ProperSlice(ranges, 0, n);
      var front := Assemble(ranges[..n], outcomes[..n]);
      AssembleChronological(ranges[..n], outcomes[..n]);
      AssembleSound(ranges[..n], outcomes[..n]);
      var all := Assemble(ranges, outcomes);
      forall a, b | 0 <= a < b < |all| ensures all[a].startMs < all[b].startMs {
        if b >= |front| {
          assert all[a] == front[a];
          var i :| 0 <= i < n && Kept(outcomes[..n][i]) && front[a] == SegmentOf(ranges[..n][i], outcomes[..n][i].text);
          assert ranges[..n][i] == ranges[i];
        } else {
          assert all[a] == front[a] && all[b] == front[b];
        }
      }
    }
  }

  /** The full transcript is empty exactly when no segment was produced. */
  lemma FullTranscriptEmpty(ranges: seq<Range>, outcomes: seq<Recognition>)
    requires |outcomes| == |ranges| && Proper(ranges)
    ensures var segments := Assemble(ranges, outcomes);
      Join(Texts(segments), ' ') == "" <==> segments == []
  {
    var segments := Assemble(ranges, outcomes);
    if segments != [] {
      AssembleSound(ranges, outcomes);
      assert segments[0] in segments;
      JoinLength(Texts(segments), ' ');
      assert TotalLength(Texts(segments)) >= |Texts(segments)[0]|;
    }
  }

  // ---------------------------------------------------------------------------
  // get_up_sots
  // ---------------------------------------------------------------------------

  /** `1000 * (1.0 - sensitivity)`: the shortest duration kept. */
  function MinDurationMs(sensitivity: real): real {
    1000.0 * (1.0 - sensitivity)
  }

  /** The filter of `get_up_sots`; the boundary is inclusive. */
  predicate LongEnough(seg: Segment, sensitivity: real) {
    seg.durationMs as real >= MinDurationMs(sensitivity)
  }

  /** The segments that pass the duration filter, in their original order. */
  function Filtered(segments: seq<Segment>, sensitivity: real): seq<Segment>
    decreases |segments|
  {
    if segments == [] then []
    else (if LongEnough(segments[0], sensitivity) then [segments[0]] else []) + Filtered(segments[1..], sensitivity)
  }

  /** The relevance score of a segment text against the script: Jaccard of the word sets. */
  function WordRelevance(script: string, text: string): real {
    Jaccard(WordSet(script), WordSet(text))
  }

  /** `reference_script and sort_by_relevance`: a non-empty script and relevance sorting on. */
  predicate RelevanceMode(sortByRelevance: bool, script: Option<string>) {
    script.Some? && script.value != "" && sortByRelevance
  }

  function WithRelevance(seg: Segment, script: string): Segment {
    seg.(relevanceScore := Some(WordRelevance(script, seg.text)))
  }

  function ScoreAll(segments: seq<Segment>, script: string): seq<Segment> {
    seq(|segments|, i requires 0 <= i < |segments| => WithRelevance(segments[i], script))
  }

  /** Every record that passes the filter gets its score written into it. */
  function Rescored(segments: seq<Segment>, sensitivity: real, script: string): seq<Segment> {
    seq(|segments|, i requires 0 <= i < |segments| =>
      if LongEnough(segments[i], sensitivity) then WithRelevance(segments[i], script) else segments[i])
  }

  /** The caller's records after `get_up_sots`. */
  function AfterScoring(segments: seq<Segment>, sensitivity: real, sortByRelevance: bool, script: Option<string>): seq<Segment> {
    if RelevanceMode(sortByRelevance, script) then Rescored(segments, sensitivity, script.value) else segments
  }

  /** The sort step: by relevance, largest first, or by start time. */
  function Ordered(filtered: seq<Segment>, sortByRelevance: bool, script: Option<string>): seq<Segment> {
    if RelevanceMode(sortByRelevance, script) then SortDescending(ScoreAll(filtered, script.value), RelevanceKey)
    else SortAscending(filtered, StartKey)
  }

  /** `filtered[:max_count]` when `max_count > 0`; otherwise no cut. */
  function Capped(s: seq<Segment>, maxCount: int): seq<Segment> {
    if 0 < maxCount < |s| then s[..maxCount] else s
  }

  /** The up-sots `get_up_sots` returns. */
  function UpSots(segments: seq<Segment>, maxCount: int, sensitivity: real, sortByRelevance: bool, script: Option<string>): seq<Segment> {
    Capped(Ordered(Filtered(segments, sensitivity), sortByRelevance, script), maxCount)
  }

  /**
   * `get_up_sots` on the caller's records. In the relevance branch the score is
   * written into each record that passed the filter (the filtered list holds
   * the caller's own records), replacing any score it had.
   */
  method GetUpSots(segments: array<Segment>, maxCount: int, sensitivity: real,
                   sortByRelevance: bool, referenceScript: Option<string>)
    returns (upSots: seq<Segment>)
    modifies segments
    ensures segments[..] == AfterScoring(old(segments[..]), sensitivity, sortByRelevance, referenceScript)
    ensures upSots == UpSots(old(segments[..]), maxCount, sensitivity, sortByRelevance, referenceScript)
  {
    if segments.Length == 0 {
      return [];
    }
    var sorted: seq<Segment>;
    if RelevanceMode(sortByRelevance, referenceScript) {
      var script := referenceScript.value;
      var scriptWords := WordSet(script);
      var i := 0;
      while i < segments.Length
        invariant 0 <= i <= segments.Length
        invariant forall j :: 0 <= j < segments.Length ==>
          segments[j] == (if j < i && LongEnough(old(segments[j]), sensitivity)
                          then WithRelevance(old(segments[j]), script) else old(segments[j]))
      {
        if LongEnough(segments[i], sensitivity) {
          segments[i] := segments[i].(relevanceScore := Some(Jaccard(scriptWords, WordSet(segments[i].text))));
        }
        i := i + 1;
      }
      assert segments[..] == Rescored(old(segments[..]), sensitivity, script);
      FilteredRescored(old(segments[..]), sensitivity, script);
      var filtered := Filtered(segments[..], sensitivity);
      sorted := SortDescending(filtered, RelevanceKey);
    } else {
      var filtered := Filtered(segments[..], sensitivity);
      sorted := SortAscending(filtered, StartKey);
    }
    upSots := if maxCount > 0 && maxCount < |sorted| then sorted[..maxCount] else sorted;
  }

  lemma ScoreAllAppend(a: seq<Segment>, b: seq<Segment>, script: string)
    ensures ScoreAll(a + b, script) == ScoreAll(a, script) + ScoreAll(b, script)
  {
  }

  /** Filtering the rescored records gives the scored filtered records. */
  lemma {:induction false} FilteredRescored(segments: seq<Segment>, sensitivity: real, script: string)
    ensures Filtered(Rescored(segments, sensitivity, script), sensitivity) == ScoreAll(Filtered(segments, sensitivity), script)
    decreases |segments|
  {
    if segments != [] {
      var r := Rescored(segments, sensitivity, script);
      assert r[1..] == Rescored(segments[1..], sensitivity, script);
      FilteredRescored(segments[1..], sensitivity, script);
      var head := if LongEnough(segments[0], sensitivity) then [segments[0]] else [];
      ScoreAllAppend(head, Filtered(segments[1..], sensitivity), script);
    }
  }

  /** A segment passes the filter exactly when it is one of the input segments that is long enough. */
  lemma {:induction false} FilteredMembers(segments: seq<Segment>, sensitivity: real)
    ensures forall x :: x in Filtered(segments, sensitivity) <==> x in segments && LongEnough(x, sensitivity)
    ensures |Filtered(segments, sensitivity)| <= |segments|
    decreases |segments|
  {
    if segments != [] {
      FilteredMembers(segments[1..], sensitivity);
      assert segments == [segments[0]] + segments[1..];
    }
  }

  /** With sensitivity 1 or more the threshold is at most zero and every segment passes. */
  lemma {:induction false} FilteredAllPass(segments: seq<Segment>, sensitivity: real)
    requires sensitivity >= 1.0
    ensures Filtered(segments, sensitivity) == segments
    decreases |segments|
  {
    if segments != [] {
      FilteredAllPass(segments[1..], sensitivity);
      assert segments == [segments[0]] + segments[1..];
    }
  }

  /** Filtering keeps a chronological order. */
  lemma {:induction false} FilteredKeepsOrder(segments: seq<Segment>, sensitivity: real)
    requires NonDecreasing(segments, StartKey)
    ensures NonDecreasing(Filtered(segments, sensitivity), StartKey)
    decreases |segments|
  {
    if segments != [] {
      var t := segments[1..];
      assert NonDecreasing(t, StartKey) by {
        forall i, j | 0 <= i < j < |t| ensures StartKey(t[i]) <= StartKey(t[j]) {
          assert t[i] == segments[i + 1] && t[j] == segments[j + 1];
        }
      }
      FilteredKeepsOrder(t, sensitivity);
      FilteredMembers(t, sensitivity);
      var f := Filtered(segments, sensitivity);
      var ft := Filtered(t, sensitivity);
      forall i, j | 0 <= i < j < |f| ensures StartKey(f[i]) <= StartKey(f[j]) {
        if LongEnough(segments[0], sensitivity) && i == 0 {
          assert f[j] == ft[j - 1] && ft[j - 1] in t;
          var k :| 0 <= k < |t| && t[k] == f[j];
          assert segments[k + 1] == f[j];
        }
      }
    }
  }

  /** How many up-sots come back: `min(max_count, n)` when `max_count > 0`, else all `n` that pass. */
  lemma UpSotsCount(segments: seq<Segment>, maxCount: int, sensitivity: real, sortByRelevance: bool, script: Option<string>)
    ensures var n := |Filtered(segments, sensitivity)|;
      |UpSots(segments, maxCount, sensitivity, sortByRelevance, script)| == if maxCount > 0 && maxCount < n then maxCount else n
  {
    var f := Filtered(segments, sensitivity);
    if RelevanceMode(sortByRelevance, script) {
      SortDescendingCorrect(ScoreAll(f, script.value), RelevanceKey);
    } else {
      SortAscendingCorrect(f, StartKey);
    }
  }

  lemma OrderedMembers(f: seq<Segment>, sortByRelevance: bool, script: Option<string>)
    ensures forall x :: x in Ordered(f, sortByRelevance, script) ==>
      (if RelevanceMode(sortByRelevance, script) then x in ScoreAll(f, script.value) else x in f)
  {
    var o := Ordered(f, sortByRelevance, script);
    if RelevanceMode(sortByRelevance, script) {
      SortDescendingCorrect(ScoreAll(f, script.value), RelevanceKey);
    } else {
      SortAscendingCorrect(f, StartKey);
    }
    forall x | x in o ensures if RelevanceMode(sortByRelevance, script) then x in ScoreAll(f, script.value) else x in f {
      assert x in multiset(o);
    }
  }

  /** Every up-sot meets the duration threshold. */
  lemma UpSotsLongEnough(segments: seq<Segment>, maxCount: int, sensitivity: real, sortByRelevance: bool, script: Option<string>)
    ensures forall x :: x in UpSots(segments, maxCount, sensitivity, sortByRelevance, script) ==> LongEnough(x, sensitivity)
  {
    var f := Filtered(segments, sensitivity);
    var o := Ordered(f, sortByRelevance, script);
    FilteredMembers(segments, sensitivity);
    OrderedMembers(f, sortByRelevance, script);
    forall x | x in Capped(o, maxCount) ensures LongEnough(x, sensitivity) {
      assert x in o;
      if RelevanceMode(sortByRelevance, script) {
        var k :| 0 <= k < |f| && ScoreAll(f, script.value)[k] == x;
        assert f[k] in f;
      }
    }
  }

  lemma CappedIsPrefix(s: seq<Segment>, maxCount: int)
    ensures var n := if 0 < maxCount < |s| then maxCount else |s|;
      Capped(s, maxCount) == s[..n]
  {
  }

  /**
   * Chronological mode: the up-sots are in non-decreasing start order, and they
   * are the earliest filtered segments, ties kept in filtered order.
   */
  lemma ChronologicalUpSots(segments: seq<Segment>, maxCount: int, sensitivity: real, sortByRelevance: bool, script: Option<string>)
    requires !RelevanceMode(sortByRelevance, script)
    ensures var u := UpSots(segments, maxCount, sensitivity, sortByRelevance, script);
      NonDecreasing(u, StartKey) && IsTopOfStableSort(Filtered(segments, sensitivity), u, Negated(StartKey))
  {
    var f := Filtered(segments, sensitivity);
    var r := SortAscending(f, StartKey);
    SortDescendingCorrect(f, Negated(StartKey));
    var n := if 0 < maxCount < |r| then maxCount else |r|;
    CappedIsPrefix(r, maxCount);
    PrefixOfStableSort(f, r, Negated(StartKey), n);
    NonDecreasingNegated(r[..n], StartKey);
  }

  /**
   * Segments already in start order come back filtered and capped, nothing
   * reordered: the chronological sort is idempotent.
   */
  lemma ChronologicalOfOrdered(segments: seq<Segment>, maxCount: int, sensitivity: real, sortByRelevance: bool, script: Option<string>)
    requires !RelevanceMode(sortByRelevance, script) && NonDecreasing(segments, StartKey)
    ensures UpSots(segments, maxCount, sensitivity, sortByRelevance, script) == Capped(Filtered(segments, sensitivity), maxCount)
  {
    var f := Filtered(segments, sensitivity);
    FilteredKeepsOrder(segments, sensitivity);
    NonDecreasingNegated(f, StartKey);
    SortDescendingOfSorted(f, Negated(StartKey));
  }

  /** Without a script, or with an empty one, relevance sorting falls back to the chronological branch. */
  lemma NoScriptIsChronological(segments: seq<Segment>, maxCount: int, sensitivity: real, script: Option<string>)
    requires script.None? || script == Some("")
    ensures UpSots(segments, maxCount, sensitivity, true, script) == UpSots(segments, maxCount, sensitivity, false, None)
    ensures AfterScoring(segments, sensitivity, true, script) == segments
  {
  }

  /**
   * Relevance mode: the up-sots are the highest-scoring filtered segments,
   * largest score first, ties kept in filtered order.
   */
  lemma RelevanceUpSots(segments: seq<Segment>, maxCount: int, sensitivity: real, sortByRelevance: bool, script: Option<string>)
    requires RelevanceMode(sortByRelevance, script)
    ensures IsTopOfStableSort(ScoreAll(Filtered(segments, sensitivity), script.value),
                              UpSots(segments, maxCount, sensitivity, sortByRelevance, script), RelevanceKey)
  {
    var sf := ScoreAll(Filtered(segments, sensitivity), script.value);
    var r := SortDescending(sf, RelevanceKey);
    SortDescendingCorrect(sf, RelevanceKey);
    var n := if 0 < maxCount < |r| then maxCount else |r|;
    CappedIsPrefix(r, maxCount);
    PrefixOfStableSort(sf, r, RelevanceKey, n);
  }

  /**
   * Relevance mode: every up-sot carries the Jaccard score of its words against
   * the script's, which lies in [0, 1].
   */
  lemma RelevanceScores(segments: seq<Segment>, maxCount: int, sensitivity: real, sortByRelevance: bool, script: Option<string>)
    requires RelevanceMode(sortByRelevance, script)
    ensures forall x :: x in UpSots(segments, maxCount, sensitivity, sortByRelevance, script) ==>
      && x.relevanceScore == Some(WordRelevance(script.value, x.text))
      && 0.0 <= x.relevanceScore.value <= 1.0
  {
    var f := Filtered(segments, sensitivity);
    var o := Ordered(f, sortByRelevance, script);
    OrderedMembers(f, sortByRelevance, script);
    forall x | x in Capped(o, maxCount)
      ensures x.relevanceScore == Some(WordRelevance(script.value, x.text)) && 0.0 <= x.relevanceScore.value <= 1.0
    {
      assert x in o;
      JaccardBounds(WordSet(script.value), WordSet(x.text));
    }
  }

  /**
   * A script that is not empty but has no word characters (only spaces, say)
   * still selects the relevance branch: every score is 0, and the stable sort
   * leaves the filtered segments in their input order rather than sorting
   * them by start time.
   */
  lemma WordlessScriptKeepsInputOrder(segments: seq<Segment>, maxCount: int, sensitivity: real, script: string)
    requires script != "" && WordSet(script) == {}
    ensures UpSots(segments, maxCount, sensitivity, true, Some(script))
      == Capped(ScoreAll(Filtered(segments, sensitivity), script), maxCount)
  {
    var sf := ScoreAll(Filtered(segments, sensitivity), script);
    assert forall i :: 0 <= i < |sf| ==> RelevanceKey(sf[i]) == 0.0;
    SortDescendingOfSorted(sf, RelevanceKey);
  }

  /**
   * The records left with the caller: in relevance mode each record that
   * passed the filter has its score replaced by the Jaccard score, whatever it
   * held before; every other field, and every other record, is unchanged.
   */
  lemma AfterScoringOverwrites(segments: seq<Segment>, sensitivity: real, sortByRelevance: bool, script: Option<string>, i: nat)
    requires i < |segments|
    ensures var after := AfterScoring(segments, sensitivity, sortByRelevance, script);
      && |after| == |segments|
      && after[i].(relevanceScore := segments[i].relevanceScore) == segments[i]
      && after[i].relevanceScore ==
           if RelevanceMode(sortByRelevance, script) && LongEnough(segments[i], sensitivity)
           then Some(WordRelevance(script.value, segments[i].text))
           else segments[i].relevanceScore
  {
  }

  /**
   * One segment from 0 to 2000 ms, sensitivity 0.5 (threshold 500 ms), a cap
   * of 10, chronological mode: the result is the input list unchanged.
   */
  lemma SingleSegmentExample()
    ensures var seg := Segment("00:00:00", "hello world", 0, 2000, 2000, None, None);
      UpSots([seg], 10, 0.5, false, None) == [seg]
  {
    var seg := Segment("00:00:00", "hello world", 0, 2000, 2000, None, None);
    assert Filtered([seg], 0.5) == [seg] by {
      assert [seg][1..] == [];
    }
    assert NonDecreasing([seg], StartKey);
    ChronologicalOfOrdered([seg], 10, 0.5, false, None);
  }
}
