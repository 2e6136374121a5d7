# Retro Transcription Tool: a verified model of the transcription core

The Retro Transcription Tool turns a recording into speech segments with
display timecodes. A segment is one non-silent stretch of audio with the text a
speech recogniser heard in it. From those segments the tool does four things:

- It picks the "up-sots", the sound bites worth using in a news edit. They
  must be long enough, and they are ordered by start time or by relevance to a
  reference script.
- It scores segments against that reference script.
- It writes a plain-text transcript and a 30 fps non-drop-frame EDL (edit
  decision list).
- It keeps the user's parameters in a small settings store.

This project models that core in Dafny and proves properties of the model. The
modules follow the source files:

| module | models |
|---|---|
| `Transcription` (transcription.dfy) | `transcribe_audio`'s segment-building loop and `get_up_sots` (audio_processor.py) |
| `ScriptMatching` (script_matching.dfy) | the `ScriptMatcher` class with its fallback tokenizers and stopwords (script_matcher.py) |
| `OutputGeneration` (output_generation.dfy) | the TXT layout and the EDL events (output_generator.py) |
| `ParameterStore` (parameter_store.dfy) | the `ParameterControls` class (parameter_controls.py) |
| `Timecode` (timecode.dfy) | `HH:MM:SS` display timecodes, `HH:MM:SS:FF` EDL timecodes, reading the fields with `int()`, the timecode shape check |
| `Text` (text.dfy) | the string operations the core relies on: lower-casing, `\w+` words, the sentence splitter, `split`/`join`, zero padding, `int()`/`float()` on strings, `os.path.basename` |
| `Sorting` (sorting.dfy) | Python's stable `sort(key=…, reverse=True)` and `sort(key=…)`, as insertion sorts with the stability property stated |
| `Similarity` (similarity.dfy) | the Jaccard score both scorers use |
| `Segments`, `Options` | the segment record and the optional-value type |

The model follows the source's form:

- Loops become `while` loops whose invariants tie the state to a
  specification function. This covers recognition over the ranges, the
  scoring loop in `get_up_sots`, sentence matching, batch scoring and writing
  the TXT and EDL documents.
- The recogniser's answers are an input sequence, one answer per range.
- `difflib`'s ratio is a function parameter of the matcher.
- `get_up_sots` works on an `array` of segment records. It writes the
  relevance score into the records the caller passed in, as the source does.
- The matcher and the parameter store are classes whose fields their methods
  update.
- A Python exception becomes `None`. The source raises one in
  `sort_segments_by_relevance` when a segment to sort has no relevance score
  (`script_matcher.py:219`). It catches one in `generate_edl_output` when an
  EDL timecode is malformed (`output_generator.py:217-221`).

### Behaviour worth noting

- The script is tested with Python truthiness (`audio_processor.py:164`). So a
  non-empty script with no word characters, such as `" "`, takes the relevance
  branch. Every score is then 0, and the stable sort keeps the filtered
  segments in their input order rather than ordering them by start time.
  `Transcription.WordlessScriptKeepsInputOrder` states this.
- Up-sot selection always writes a new score over any score a segment already
  has (`audio_processor.py:170-179`). `Transcription.AfterScoringOverwrites`
  states this.

## Model

Source paths are relative to the repository root.

| member | source | states |
|---|---|---|
| Transcription.TranscribeAudio | src/models/transcription/audio_processor.py:88-131 | the segments are those of the ranges whose recognised text is non-empty, in range order, with fields as `Assemble` defines; the full transcript is their texts joined by one space |
| Transcription.AssembleSound | src/models/transcription/audio_processor.py:90-117 | every segment comes from some range whose recognition gave non-empty text: that text, the range's start and end, `duration_ms = end - start`, the display timecode of its start, no score |
| Transcription.AssembleComplete | src/models/transcription/audio_processor.py:101-117 | every range whose recognised text is non-empty contributes its segment |
| Transcription.AssembleAppend | src/models/transcription/audio_processor.py:90-121 | the segments of two runs of ranges are the segments of each run, concatenated: output order is range order |
| Transcription.AssembleAt | src/models/transcription/audio_processor.py:90-121 | the segments are those of the ranges before `i`, then range `i`'s, then those after |
| Transcription.RecognitionFailureIsLocal | src/models/transcription/audio_processor.py:118-121 | an unknown-value error, a request error or empty text on range `i` drops only that range's segment; the loop goes on, and the segments are those of the ranges before `i` followed by those after it |
| Transcription.AssembleChronological | src/models/transcription/audio_processor.py:90-117 | ranges in increasing start order give segments in increasing start order |
| Transcription.FullTranscriptEmpty | src/models/transcription/audio_processor.py:131 | the full transcript is empty exactly when no segment was produced |
| Timecode.DisplayTimecodeFields | src/models/transcription/audio_processor.py:105-109 | the display timecode splits into the hours, minutes and seconds of `floor(start_ms/1000)`, each read back by `int()` |
| Timecode.ParseDisplayTimecode | src/models/transcription/audio_processor.py:105-109 | a display timecode reads back as hours, minutes below 60 and seconds below 60 whose total is `floor(ms/1000)` |
| Timecode.DisplayTimecodeWellFormed | src/models/transcription/audio_processor.py:105-109 | below 100 hours a display timecode has the `DD:DD:DD` shape the parameter store accepts |
| Timecode.DisplayTimecodeExample | src/models/transcription/audio_processor.py:105-109 | 3 661 000 ms is displayed as `01:01:01` |
| Text.PadNatValue | src/models/transcription/audio_processor.py:109 | a zero-padded rendering (`{n:02d}`) is all digits and has the value `n` |
| Text.JoinSplitRoundTrip | src/models/transcription/audio_processor.py:131 | `join` undoes `split` on the same separator |
| Text.SplitJoinRoundTrip | src/models/transcription/audio_processor.py:131 | splitting a join of separator-free parts gives the parts back |
| Transcription.GetUpSots | src/models/transcription/audio_processor.py:140-191 | the caller's records become `AfterScoring` of the old records, and the result is `UpSots` of them: filter, score and sort (or sort by start), then cap |
| Transcription.FilteredMembers | src/models/transcription/audio_processor.py:159-160 | a segment survives the filter exactly when it is an input segment with `duration_ms >= 1000*(1-sensitivity)`, the boundary inclusive |
| Transcription.FilteredAllPass | src/models/transcription/audio_processor.py:159-160 | with sensitivity 1 or more every segment passes |
| Transcription.FilteredKeepsOrder | src/models/transcription/audio_processor.py:160 | filtering keeps a start-ordered list start-ordered |
| Transcription.FilteredRescored | src/models/transcription/audio_processor.py:160-179 | filtering the rescored records gives the filtered records with their scores: the scores land on the records that passed |
| Transcription.UpSotsCount | src/models/transcription/audio_processor.py:154-189 | the result holds `min(max_count, n)` of the `n` surviving segments when `max_count > 0`, and all `n` otherwise (so an empty input gives an empty result) |
| Transcription.CappedIsPrefix | src/models/transcription/audio_processor.py:188-189 | the cap keeps a prefix of the sorted list, of length `min(max_count, n)` when `max_count > 0` |
| Transcription.OrderedMembers | src/models/transcription/audio_processor.py:164-185 | the sorted list holds the filtered segments, scored in relevance mode |
| Transcription.UpSotsLongEnough | src/models/transcription/audio_processor.py:159-160 | every up-sot meets the duration threshold |
| Transcription.ChronologicalUpSots | src/models/transcription/audio_processor.py:183-189 | outside relevance mode the up-sots are in non-decreasing start order and are the earliest filtered segments, ties in filtered order (a prefix of the stable sort) |
| Transcription.ChronologicalOfOrdered | src/models/transcription/audio_processor.py:185 | start-ordered input comes back only filtered and capped: the chronological sort changes nothing |
| Transcription.NoScriptIsChronological | src/models/transcription/audio_processor.py:164 | with no script or an empty one, relevance sorting gives the chronological result and writes no score |
| Transcription.RelevanceUpSots | src/models/transcription/audio_processor.py:164-189 | in relevance mode the up-sots are the highest-scoring filtered segments, largest first, ties in filtered order (a prefix of the stable sort) |
| Transcription.RelevanceScores | src/models/transcription/audio_processor.py:168-179 | in relevance mode each up-sot's score is the Jaccard of the lower-cased `\w+` word sets of script and text, with no stopwords removed, and lies in [0, 1] |
| Transcription.WordlessScriptKeepsInputOrder | src/models/transcription/audio_processor.py:164-182 | a non-empty script with no words selects the relevance branch, and the result is the filtered input, capped, in input order |
| Transcription.AfterScoringOverwrites | src/models/transcription/audio_processor.py:170-179 | in relevance mode each record that passed the filter has its old score replaced by the Jaccard score; nothing else in any record changes |
| Transcription.SingleSegmentExample | src/models/transcription/audio_processor.py:140-191 | one 2000 ms segment at sensitivity 0.5 with a cap of 10 comes back unchanged |
| Similarity.JaccardBounds | src/models/transcription/audio_processor.py:174-179 | the Jaccard score lies in [0, 1] |
| Similarity.JaccardZero | src/models/transcription/audio_processor.py:174-179 | the score is 0 exactly when a set is empty or the sets are disjoint |
| Similarity.JaccardOne | src/models/transcription/script_matcher.py:140-145 | the score is 1 exactly for two equal non-empty sets |
| Similarity.JaccardSymmetric | src/models/transcription/script_matcher.py:140-145 | the score does not depend on argument order |
| Sorting.SortDescendingCorrect | src/models/transcription/audio_processor.py:182 | the sort by key, largest first, is non-increasing, a permutation, and keeps equal keys in input order (stable) |
| Sorting.SortAscendingCorrect | src/models/transcription/audio_processor.py:185 | the sort by start time is non-decreasing, a permutation, and stable |
| Sorting.StableSortUnique | src/models/transcription/script_matcher.py:219 | a stable descending sort is unique: any two results with those properties are equal |
| Sorting.SortDescendingOfSorted | src/models/transcription/audio_processor.py:185 | sorting an already sorted list changes nothing |
| Sorting.PrefixOfStableSort | src/models/transcription/audio_processor.py:188-189 | every prefix of a stable sort holds the largest elements, with ties in input order |
| Sorting.HeadIsMaximal | src/models/transcription/script_matcher.py:163-171 | the first element of the sort has the largest key |
| Sorting.NonDecreasingNegated | src/models/transcription/audio_processor.py:185 | ascending by a key is descending by its negation |
| ScriptMatching.ScriptMatcher.constructor | src/models/transcription/script_matcher.py:36-83 | a new matcher has an empty script, no sentences, no keywords, the fallback stopword set and the given ratio |
| ScriptMatching.ScriptMatcher.SetReferenceScript | src/models/transcription/script_matcher.py:95-113 | stores the raw text, the tokenizer's sentences and the keywords, and returns their counts |
| ScriptMatching.KeywordsAreWords | src/models/transcription/script_matcher.py:102-104 | the keywords are exactly the lower-cased `\w+` words without an underscore (so `isalnum()` holds) that are not stopwords; none holds a capital |
| ScriptMatching.StopwordsOnlyHaveNoKeywords | src/models/transcription/script_matcher.py:102-104 | a text made only of stopwords has no keywords |
| Text.WordsAreRuns | src/models/transcription/script_matcher.py:83 | every token of the fallback word tokenizer is a non-empty run of word characters of the text |
| Text.WordsSplitAtSeparator | src/models/transcription/script_matcher.py:83 | a non-word character splits the tokens: the tokens of `a c b` are those of `a` then those of `b` |
| Text.WordsOfRun | src/models/transcription/script_matcher.py:83 | a run of word characters is one token |
| Text.LowerIdempotent | src/models/transcription/script_matcher.py:102 | lower-casing twice is lower-casing once |
| Text.LowerKeepsWordChars | src/models/transcription/script_matcher.py:83 | lower-casing keeps word characters word characters and the rest not |
| Text.SplitSentencesNoCut | src/models/transcription/script_matcher.py:80 | a text with no terminator followed by whitespace is one sentence |
| Text.SplitSentencesAtCut | src/models/transcription/script_matcher.py:80 | the fallback sentence splitter cuts after `.`, `!` or `?` followed by whitespace and drops that whitespace |
| ScriptMatching.ScriptMatcher.MatchTranscriptSegment | src/models/transcription/script_matcher.py:121-178 | the loop's result is `MatchSegment` of the stored script and the text |
| ScriptMatching.ScriptMatcher.CollectMatches | src/models/transcription/script_matcher.py:148-160 | the sentences kept are the script sentences, in script order, whose ratio exceeds 0.3, each with its ratio; the score list is exactly their ratios |
| ScriptMatching.EmptyMatch | src/models/transcription/script_matcher.py:131-132 | an empty script or empty segment text scores 0 with no matches |
| ScriptMatching.CandidatesSound | src/models/transcription/script_matcher.py:151-160 | every candidate is a script sentence whose ratio to the lower-cased text exceeds 0.3, recorded with that ratio |
| ScriptMatching.CandidatesComplete | src/models/transcription/script_matcher.py:151-160 | every script sentence whose ratio exceeds 0.3 is a candidate |
| ScriptMatching.MaxOf | src/models/transcription/script_matcher.py:171 | `max` is an element at least as large as every element |
| ScriptMatching.MatchedSentences | src/models/transcription/script_matcher.py:151-166 | at most three matches, each a script sentence scoring above 0.3; they are the best candidates, largest first, ties in script order |
| ScriptMatching.MatchedCount | src/models/transcription/script_matcher.py:163-166 | the number of matches is `min(3, candidates)` |
| ScriptMatching.BestMatchFirst | src/models/transcription/script_matcher.py:163-171 | the first sorted match carries the largest similarity |
| ScriptMatching.ScoreFromBestMatch | src/models/transcription/script_matcher.py:139-173 | the score is `0.6*kw + 0.4*` the first match's similarity when there is a match, else `0.6*kw`, with `kw` the keyword Jaccard |
| ScriptMatching.ScoreBounds | src/models/transcription/script_matcher.py:139-173 | with a ratio at most 1 the score lies in [0, 1] |
| ScriptMatching.KeywordScoreSymmetric | src/models/transcription/script_matcher.py:140-145 | the keyword score is symmetric in script and segment |
| ScriptMatching.ScriptMatcher.ScoreTranscriptSegments | src/models/transcription/script_matcher.py:180-202 | the result is the scored copy of each segment, in order |
| ScriptMatching.ScoreSegmentsShape | src/models/transcription/script_matcher.py:190-202 | same length and order; each copy differs from its segment only in score and matches, which are its own match |
| ScriptMatching.ScoreSegmentsAllScored | src/models/transcription/script_matcher.py:196-198 | every scored copy carries a score |
| ScriptMatching.ScriptMatcher.SortSegmentsByRelevance | src/models/transcription/script_matcher.py:204-221 | the result is `SortByRelevance`: score when the first segment has no score, then the stable sort by score, largest first |
| ScriptMatching.SortByRelevanceCorrect | src/models/transcription/script_matcher.py:214-221 | the sort fails exactly when the first segment has a score and a later one has none; otherwise it is the stable descending sort of what was sorted, same length |
| ScriptMatching.ScoredSegmentsKeepScores | src/models/transcription/script_matcher.py:215-219 | segments that all carry scores are sorted by their own scores, not rescored |
| OutputGeneration.GenerateTxtOutput | src/models/transcription/output_generator.py:57-61 | the writes add up to `TxtDocument`: the header lines, then per segment its line and a blank line, each line ended by a newline |
| OutputGeneration.SegmentLinesShape | src/models/transcription/output_generator.py:60-61 | there are two lines per segment, in input order: `[timecode] text` and an empty line |
| OutputGeneration.TxtDocumentLines | src/models/transcription/output_generator.py:57-61 | with no line breaks in timecodes or texts, the document's lines are the two-line header, a blank line, then the segment lines |
| OutputGeneration.GenerateEdlOutput | src/models/transcription/output_generator.py:164-209 | the writes add up to `EdlDocument`: the header, then each clip's four event lines; a timecode that cannot be read fails the call |
| OutputGeneration.ReadEvent | src/models/transcription/output_generator.py:168-209 | one clip's event is `EventLines`; fewer than three timecode fields, or a field `int()` rejects, gives none |
| OutputGeneration.EdlDocumentSucceeds | src/models/transcription/output_generator.py:168-174 | the EDL is produced exactly when every clip's timecode has at least three `:`-separated fields and `int()` accepts the first three |
| OutputGeneration.EdlEventsFail | src/models/transcription/output_generator.py:171-174 | one unreadable timecode fails the whole EDL |
| OutputGeneration.EdlEventsShape | src/models/transcription/output_generator.py:168-209 | every event is four lines, in clip order: event `i` is lines `4i` to `4i+3` |
| OutputGeneration.EventLinesPresent | src/models/transcription/output_generator.py:171-209 | an event exists exactly when its timecode reads, and it has four lines |
| OutputGeneration.EventDuration | src/models/transcription/output_generator.py:177-190 | a readable timecode gives an event whose end is start plus the segment's `duration_ms`, or plus 5000 ms when the segment has none |
| OutputGeneration.EndTime | src/models/transcription/output_generator.py:180-190 | the carries conserve the total time, and the end seconds and end minutes both end below 60 (non-negative for non-negative inputs) |
| OutputGeneration.EndTimeCanonical | src/models/transcription/output_generator.py:180-190 | for non-negative inputs the end point is the hours, minutes and milliseconds of start plus duration |
| OutputGeneration.EndFrames | src/models/transcription/output_generator.py:193-194 | the frame field lies in 0..29 |
| OutputGeneration.EndFramesOfTotal | src/models/transcription/output_generator.py:193-194 | the frame is `floor((total ms mod 1000) * 30 / 1000)` of the end time |
| OutputGeneration.EndTimecodeExample | src/models/transcription/output_generator.py:171-198 | `00:00:58` plus 3500 ms ends at `00:01:01:15`, and the start is `00:00:58:00` |
| OutputGeneration.CommentBounds | src/models/transcription/output_generator.py:204-207 | the comment is the text when it has at most 50 characters, else its first 47 plus `...`, never longer than 50 |
| OutputGeneration.EventLineFields | src/models/transcription/output_generator.py:196-201 | the event line splits on spaces into the 3-digit index, `AV`, `C` and start, end, start, end (source equals record); the start reads back as the parsed time with frame 0, the end as the carried time and its frame |
| OutputGeneration.EventLineIsJoin | src/models/transcription/output_generator.py:201 | the event line is its fields joined by single spaces |
| OutputGeneration.EventLineSplit | src/models/transcription/output_generator.py:201 | an event line whose timecodes hold no space splits back into its fields |
| OutputGeneration.EventOfDisplayTimecode | src/models/transcription/output_generator.py:171-174 | a display timecode made by the transcriber always reads back, at the segment's whole second, so its event exists |
| Timecode.FrameTimecodeFields | src/models/transcription/output_generator.py:197-198 | each field of an `HH:MM:SS:FF` timecode reads back as the number written |
| Timecode.FrameTimecodeHasNoSpace | src/models/transcription/output_generator.py:197-198 | an EDL timecode holds no space |
| Text.ParseIntOfPadInt | src/models/transcription/output_generator.py:171-174 | `int()` of a zero-padded rendering gives the number back |
| Text.Basename | src/models/transcription/output_generator.py:202 | the basename is the part of the path after its last `/` |
| ParameterStore.ParameterControls.constructor | src/models/transcription/parameter_controls.py:16-26 | a new store holds count 10, sensitivity 0.5, no relevance sorting and timecode `00:00:00`, all in range |
| ParameterStore.DefaultsValid | src/models/transcription/parameter_controls.py:21-26 | the defaults are in range and the default timecode has the accepted shape |
| ParameterStore.ParameterControls.GetParameters | src/models/transcription/parameter_controls.py:28-35 | returns the current settings as a value, so changing the result cannot change the store |
| ParameterStore.ParameterControls.SetUpSotsCount | src/models/transcription/parameter_controls.py:62-81 | the store becomes `WithCount` of the old one, and the stored count is returned; a store whose settings were in range stays in range (count 0..30, sensitivity in [0, 1], a `DD:DD:DD` timecode) |
| ParameterStore.CountSetting | src/models/transcription/parameter_controls.py:73-81 | a value `int()` accepts is clamped into 0..30 and stored; any other leaves the store unchanged; no other setting changes |
| ParameterStore.ClampIntBounds | src/models/transcription/parameter_controls.py:76 | the clamp lands in range, keeps in-range values, and maps values below and above to the bounds |
| ParameterStore.Truncate | src/models/transcription/parameter_controls.py:74 | `int()` of a float truncates toward zero |
| ParameterStore.TruncateExamples | src/models/transcription/parameter_controls.py:74-76 | `int(2.7)` is 2, `int(-2.7)` is -2, a count of 45.9 is stored as 30 and -3 as 0 |
| ParameterStore.ParameterControls.SetSensitivity | src/models/transcription/parameter_controls.py:83-102 | the store becomes `WithSensitivity` of the old one, and the stored sensitivity is returned; a store whose settings were in range stays in range (count 0..30, sensitivity in [0, 1], a `DD:DD:DD` timecode) |
| ParameterStore.SensitivitySetting | src/models/transcription/parameter_controls.py:94-102 | a value `float()` accepts is clamped into [0.0, 1.0] and stored; any other leaves the store unchanged |
| ParameterStore.ClampRealBounds | src/models/transcription/parameter_controls.py:97 | the real clamp lands in range and keeps in-range values |
| ParameterStore.ConversionFailures | src/models/transcription/parameter_controls.py:73-102 | `int()` and `float()` fail exactly on None, collections and strings that are not numbers |
| ParameterStore.DigitStringsConvertAlike | src/models/transcription/parameter_controls.py:74-95 | a digit string converts by `int()` and by `float()` to the same value |
| Text.ParseRealOfDigits | src/models/transcription/parameter_controls.py:95 | `float()` accepts every digit string with its integer value |
| ParameterStore.ParameterControls.SetSortByRelevance | src/models/transcription/parameter_controls.py:104-116 | the stored flag becomes the truth value of the argument, which is returned; a store whose settings were in range stays in range (count 0..30, sensitivity in [0, 1], a `DD:DD:DD` timecode) |
| ParameterStore.SortSetting | src/models/transcription/parameter_controls.py:115 | the flag is the truthiness of the argument, a boolean is kept as it is, and nothing else changes |
| ParameterStore.ParameterControls.UpdateTimecode | src/models/transcription/parameter_controls.py:118-137 | the store becomes `WithTimecode` of the old one, and the stored timecode is returned; a store whose settings were in range stays in range (count 0..30, sensitivity in [0, 1], a `DD:DD:DD` timecode) |
| ParameterStore.TimecodeSetting | src/models/transcription/parameter_controls.py:129-137 | a timecode is stored exactly when it is a string of shape `DD:DD:DD`; otherwise nothing changes |
| Timecode.WellFormedTimecodeShape | src/models/transcription/parameter_controls.py:129-132 | the split-based check accepts exactly 8-character strings with digits at positions 0, 1, 3, 4, 6 and 7 and colons at 2 and 5 |
| ParameterStore.TimecodeExamples | src/models/transcription/parameter_controls.py:129-137 | `99:99:99` is accepted (there is no range check); a non-string is not |
| ParameterStore.TimecodeRejections | src/models/transcription/parameter_controls.py:129-132 | `1:02:03` (a part of one digit) and `00-00-00` (no colons) are rejected |
| ParameterStore.ParameterControls.ResetTimecode | src/models/transcription/parameter_controls.py:139-147 | the timecode becomes `00:00:00`, which is returned, and nothing else changes; a store whose settings were in range stays in range (count 0..30, sensitivity in [0, 1], a `DD:DD:DD` timecode) |
| ParameterStore.ParameterControls.SetParameters | src/models/transcription/parameter_controls.py:37-60 | the store becomes `ApplyParameters` of the old one and the whole state is returned; a store whose settings were in range stays in range (count 0..30, sensitivity in [0, 1], a `DD:DD:DD` timecode) |
| ParameterStore.ApplyParametersFields | src/models/transcription/parameter_controls.py:48-58 | a key that is absent leaves its setting alone; a present key sets what its own setter would |
| ParameterStore.ApplyNothing | src/models/transcription/parameter_controls.py:48-60 | an empty request changes nothing |
| ParameterStore.ApplyIdempotent | src/models/transcription/parameter_controls.py:48-60 | sending the same request twice has the effect of sending it once |
| ParameterStore.SettersKeepValid | src/models/transcription/parameter_controls.py:62-147 | every setter and the reset keep the count in 0..30, the sensitivity in [0, 1] and the timecode well-formed |
| ParameterStore.ApplyKeepsValid | src/models/transcription/parameter_controls.py:37-60 | a request keeps a valid store valid |

## Left out

- Silence detection (pydub's `detect_nonsilent`) is a library call. The
  non-silent ranges are an input, with each range's start no later than its
  end.
- Audio decoding, chunk export and temporary WAV files are I/O and are not
  modelled.
- The speech recogniser is a network service. Its answer for each range is an
  input: `Recognized(text)`, `UnknownValue` or `RequestError`. The printed API
  error message is left out.
- `difflib.SequenceMatcher.ratio` is a library. It is the matcher's `ratio`
  parameter. The score bounds take the ratio to be at most 1, as the library
  guarantees.
- The NLTK import probe and downloads are foreign code. The model uses only
  the regex fallback tokenizers and the fallback stopword set.
- `_save_script` writes a file, so `SetReferenceScript` leaves it out.
- File writing is left out: the TXT and EDL generators return the text they
  would write. File names, timestamps, PDF output and `generate_all_outputs`
  are not modelled.
- GenerateEdlOutput: when a timecode is malformed, the source has already
  written part of the file before it fails. The model returns `None` and
  keeps no partial text.
- Floating point is not modelled:
  - Durations and EDL times are exact integer milliseconds, so
    `int((end_seconds % 1) * 30)` is computed without IEEE rounding.
  - Scores and sensitivities are exact reals.
  - `float()` has no `inf` or `nan`, and no exponent notation.
- `int()` on strings accepts surrounding ASCII whitespace, an optional sign
  and decimal digits. Underscore separators and non-ASCII digits are left out.
- Character classes (`\w`, `\s`, `isalnum`, `isdigit`, `lower`) are ASCII
  only. Unicode letters and case folding are left out.
  `\s` is space, tab, line feed, carriage return, vertical tab and form feed.
  Python's `\s` also matches the separators `\x1c` to `\x1f`. So the sentence
  splitter in the source cuts `"a.\x1cb"` into two sentences, and the model
  keeps it as one.
- Segment records always have every field. Missing or wrongly typed fields in
  the caller's dictionaries, and the `KeyError` or `TypeError` they would
  raise, are not modelled, with two exceptions:
  - a missing `relevance_score` in sorting. The source raises `KeyError` to
    its caller there; the model returns `None` instead;
  - a missing `duration_ms` in the EDL writer.
- Transcription.GetUpSots: the relevance loop in the source walks the
  filtered list. The model walks the array and writes only into the records
  that pass the filter. It models neither aliasing between two array records
  that are the same Python object, nor other references a caller may hold.
- The scripts folder the matcher creates, and the NLTK tokenizers and
  stopwords it prefers when that toolkit is installed, are left out. The
  model is the matcher without NLTK.
- `to_json` and `from_json` depend on JSON parsing and are left out.
- The Flask routes, the session store, audio storage, e-mail and the browser
  code are outside the core.
