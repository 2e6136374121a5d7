/**
 * The output generator: the plain-text transcript with timecodes and the CMX
 * style edit decision list (EDL), one cut event per segment at a fixed 30
 * non-drop frames per second. Documents are returned as strings; writing them
 * to files is not modelled.
 */
module OutputGeneration {
  import opened Options
  import opened Text
  import opened Segments
  import opened Timecode

  // ---------------------------------------------------------------------------
  // TXT
  // ---------------------------------------------------------------------------

  /** The two header lines and the blank line after them. */
  const TxtHeader: seq<string> := ["TRANSCRIPT WITH TIMECODES", "=======================", ""]

  /** `f"[{timecode}] {text}"`. */
  function TxtLine(seg: Segment): string {
    "[" + seg.timecode + "] " + seg.text
  }

  /** Each segment's line followed by a blank line, in segment order. */
  function SegmentLines(segments: seq<Segment>): seq<string>
    decreases |segments|
  {
    if segments == [] then []
    else SegmentLines(segments[..|segments| - 1]) + [TxtLine(segments[|segments| - 1]), ""]
  }

  /** The text `generate_txt_output` writes. */
  function TxtDocument(segments: seq<Segment>): string {
    Terminated(TxtHeader + SegmentLines(segments), '\n')
  }

  /** The header writes of `generate_txt_output`. */
  method TxtHeaderText() returns (text: string)
    ensures text == Terminated(TxtHeader, '\n')
  {
    text := "TRANSCRIPT WITH TIMECODES\n";
    text := text + "=======================\n\n";
  }

  /** The writes of `generate_txt_output`, accumulated into one string. */
  method GenerateTxtOutput(segments: seq<Segment>) returns (content: string)
    ensures content == TxtDocument(segments)
  {
    content := TxtHeaderText();
    ghost var header := content;
    assert segments[..0] == [];
    var i := 0;
    while i < |segments|
      invariant 0 <= i <= |segments|
      invariant content == header + Terminated(SegmentLines(segments[..i]), '\n')
    {
      var chunk := TxtLine(segments[i]) + "\n\n";
      TxtStep(segments, i);
      ghost var body := Terminated(SegmentLines(segments[..i]), '\n');
      assert (header + body) + chunk == header + (body + chunk);
      content := content + chunk;
      i := i + 1;
    }
    assert segments[..i] == segments;
    TerminatedAppend(TxtHeader, SegmentLines(segments), '\n');
  }

  /** One more segment adds its line and a blank line to the document body. */
  lemma TxtStep(segments: seq<Segment>, i: nat)
    requires i < |segments|
    ensures Terminated(SegmentLines(segments[..i + 1]), '\n')
         == Terminated(SegmentLines(segments[..i]), '\n') + (TxtLine(segments[i]) + "\n\n")
  {
    assert segments[..i + 1][..i] == segments[..i];
    var line := TxtLine(segments[i]);
    TerminatedAppend(SegmentLines(segments[..i]), [line, ""], '\n');
    assert Terminated([line, ""], '\n') == line + "\n\n" by {
      assert [line, ""][1..] == [""];
      assert Terminated([""], '\n') == "\n";
    }
  }

  /** There are two lines per segment: the segment's own line, then a blank one. */
  lemma {:induction false} SegmentLinesShape(segments: seq<Segment>)
    ensures |SegmentLines(segments)| == 2 * |segments|
    ensures forall k :: 0 <= k < |segments| ==>
      SegmentLines(segments)[2 * k] == TxtLine(segments[k]) && SegmentLines(segments)[2 * k + 1] == ""
    decreases |segments|
  {
    if segments != [] {
      var n := |segments| - 1;
      SegmentLinesShape(segments[..n]);
      forall k | 0 <= k < n ensures segments[..n][k] == segments[k] {
      }
    }
  }

  lemma SegmentLinesHaveNoBreak(segments: seq<Segment>)
    requires forall k :: 0 <= k < |segments| ==> '\n' !in segments[k].timecode && '\n' !in segments[k].text
    ensures forall j :: 0 <= j < |SegmentLines(segments)| ==> '\n' !in SegmentLines(segments)[j]
  {
    SegmentLinesShape(segments);
    forall j | 0 <= j < |SegmentLines(segments)| ensures '\n' !in SegmentLines(segments)[j] {
      var k := j / 2;
      if j % 2 == 0 {
        assert j == 2 * k;
        var seg := segments[k];
        assert SegmentLines(segments)[j] == "[" + seg.timecode + "] " + seg.text;
      } else {
        assert j == 2 * k + 1;
      }
    }
  }

  lemma HeaderHasNoBreak()
    ensures forall k :: 0 <= k < |TxtHeader| ==> '\n' !in TxtHeader[k]
  {
  }

  /**
   * When no timecode or text holds a line break, the document's lines are the
   * header, then each segment's line and a blank line, in segment order.
   */
  lemma TxtDocumentLines(segments: seq<Segment>)
    requires forall k :: 0 <= k < |segments| ==> '\n' !in segments[k].timecode && '\n' !in segments[k].text
    ensures SplitOn(TxtDocument(segments), '\n') == TxtHeader + SegmentLines(segments) + [""]
  {
    HeaderHasNoBreak();
    LinesAfterHeader(TxtHeader, segments);
  }

  /** The document lines after any header without line breaks. */
  lemma LinesAfterHeader(header: seq<string>, segments: seq<Segment>)
    requires forall k :: 0 <= k < |segments| ==> '\n' !in segments[k].timecode && '\n' !in segments[k].text
    requires forall k :: 0 <= k < |header| ==> '\n' !in header[k]
    ensures SplitOn(Terminated(header + SegmentLines(segments), '\n'), '\n') == header + SegmentLines(segments) + [""]
  {
    SegmentLinesHaveNoBreak(segments);
    SplitTerminatedConcat(header, SegmentLines(segments), '\n');
  }

  // ---------------------------------------------------------------------------
  // EDL
  // ---------------------------------------------------------------------------

  /** The fields the EDL writer reads from a segment record; `duration_ms` may be missing. */
  datatype Clip = Clip(timecode: string, text: string, durationMs: Option<int>)

  function ClipOf(seg: Segment): Clip {
    Clip(seg.timecode, seg.text, Some(seg.durationMs))
  }

  /** The duration used for a cut: the segment's, or 5 seconds when it has none. */
  function CutDurationMs(clip: Clip): int {
    clip.durationMs.GetOr(5000)
  }

  /** The end of a cut: hours, minutes, and the seconds field in milliseconds. */
  datatype EndPoint = EndPoint(hours: int, minutes: int, secondsMs: int)

  /**
   * The end point after the carries: the seconds overflow into the minutes
   * when they reach 60, then the minutes into the hours. The total time is
   * conserved and both lower fields end below 60.
   */
  function EndTime(hours: int, minutes: int, seconds: int, durationMs: int): (e: EndPoint)
    ensures (e.hours * 3600 + e.minutes * 60) * 1000 + e.secondsMs
         == (hours * 3600 + minutes * 60 + seconds) * 1000 + durationMs
    ensures e.secondsMs < 60000 && e.minutes < 60
    ensures hours >= 0 && minutes >= 0 && seconds >= 0 && durationMs >= 0 ==>
      e.hours >= 0 && e.minutes >= 0 && e.secondsMs >= 0
  {
    var endSeconds := seconds * 1000 + durationMs;
    var endMinutes := if endSeconds >= 60000 then minutes + endSeconds / 60000 else minutes;
    var endSecondsLeft := if endSeconds >= 60000 then endSeconds % 60000 else endSeconds;
    var endHours := if endMinutes >= 60 then hours + endMinutes / 60 else hours;
    var endMinutesLeft := if endMinutes >= 60 then endMinutes % 60 else endMinutes;
    EndPoint(endHours, endMinutesLeft, endSecondsLeft)
  }

  /** `int((end_seconds % 1) * 30)`: the frame within the second, at 30 frames per second. */
  function EndFrames(secondsMs: int): (f: int)
    ensures 0 <= f < 30
  {
    (secondsMs % 1000) * 30 / 1000
  }

  /** `int(end_seconds)`: the seconds field truncated toward zero. */
  function WholeSeconds(secondsMs: int): int {
    if secondsMs >= 0 then secondsMs / 1000 else -((-secondsMs) / 1000)
  }

  function StartTimecode(hms: Hms): string {
    FrameTimecode(hms.hours, hms.minutes, hms.seconds, 0)
  }

  function EndTimecode(hms: Hms, durationMs: int): string {
    var e := EndTime(hms.hours, hms.minutes, hms.seconds, durationMs);
    FrameTimecode(e.hours, e.minutes, WholeSeconds(e.secondsMs), EndFrames(e.secondsMs))
  }

  /** The comment: the text itself up to 50 characters, else its first 47 and "...". */
  function Comment(text: string): string {
    if |text| > 50 then text[..47] + "..." else text
  }

  /** `f"{i+1:03d}  AV  C        {start_tc} {end_tc} {start_tc} {end_tc}"`. */
  function EventLine(i: nat, startTc: string, endTc: string): string {
    PadNat(i + 1, 3) + "  AV  C        " + startTc + " " + endTc + " " + startTc + " " + endTc
  }

  /** The four lines of the event for clip `i`; None when its timecode cannot be read. */
  function EventLines(i: nat, clip: Clip, sourceFile: string): Option<seq<string>> {
    match ParseTimecode(clip.timecode)
    case None => None
    case Some(hms) =>
      var startTc := StartTimecode(hms);
      var endTc := EndTimecode(hms, CutDurationMs(clip));
      Some([EventLine(i, startTc, endTc),
            "* FROM CLIP NAME: " + Basename(sourceFile),
            "* COMMENT: " + Comment(clip.text),
            ""])
  }

  /** The header of the EDL. */
  const EdlHeader: seq<string> := ["TITLE: Auto-generated EDL from Retro Transcription Tool", "FCM: NON-DROP FRAME", ""]

  /** The blocks one after another; None when one of them is missing. */
  function Flatten(blocks: seq<Option<seq<string>>>): Option<seq<string>>
    decreases |blocks|
  {
    if blocks == [] then Some([])
    else
      var front := Flatten(blocks[..|blocks| - 1]);
      var last := blocks[|blocks| - 1];
      if front.Some? && last.Some? then Some(front.value + last.value) else None
  }

  /** The block `f` makes of each element, numbered by its position. */
  function Blocks<C>(xs: seq<C>, f: (nat, C) -> Option<seq<string>>): seq<Option<seq<string>>> {
    seq(|xs|, i requires 0 <= i < |xs| => f(i, xs[i]))
  }

  /** The event of a clip at a given position. */
  function EventOf(sourceFile: string): (nat, Clip) -> Option<seq<string>> {
    (i: nat, clip: Clip) => EventLines(i, clip, sourceFile)
  }

  /** The event of each clip, numbered by its position. */
  function EventBlocks(clips: seq<Clip>, sourceFile: string): seq<Option<seq<string>>> {
    Blocks(clips, EventOf(sourceFile))
  }

  /** The event lines of all clips, numbered from 1; None when one timecode cannot be read. */
  function EdlEvents(clips: seq<Clip>, sourceFile: string): Option<seq<string>> {
    Flatten(EventBlocks(clips, sourceFile))
  }

  /** The text `generate_edl_output` writes, or None when it fails. */
  function EdlDocument(clips: seq<Clip>, sourceFile: string): Option<string> {
    match EdlEvents(clips, sourceFile)
    case None => None
    case Some(events) => Some(Terminated(EdlHeader + events, '\n'))
  }

  /**
   * The reading of one clip inside `generate_edl_output`: the timecode is split
   * on ':' and its first three fields converted with `int`; a timecode with
   * fewer than three fields, or a field that is not an integer, gives None.
   */
  method ReadEvent(i: nat, clip: Clip, sourceFile: string) returns (event: Option<seq<string>>)
    ensures event == EventLines(i, clip, sourceFile)
  {
    var tcParts := SplitOn(clip.timecode, ':');
    ghost var f := Fields(clip.timecode);
    assert |f| == |tcParts|;
    if |tcParts| < 3 {
      assert ParseTimecode(clip.timecode).None?;
      return None;
    }
    var hours := ParseInt(tcParts[0]);
    var minutes := ParseInt(tcParts[1]);
    var seconds := ParseInt(tcParts[2]);
    assert f[0] == hours && f[1] == minutes && f[2] == seconds;
    if hours.None? || minutes.None? || seconds.None? {
      assert ParseTimecode(clip.timecode).None?;
      return None;
    }
    var hms := Hms(hours.value, minutes.value, seconds.value);
    assert ParseTimecode(clip.timecode) == Some(hms);
    var startTc := StartTimecode(hms);
    var endTc := EndTimecode(hms, CutDurationMs(clip));
    event := Some([EventLine(i, startTc, endTc),
                   "* FROM CLIP NAME: " + Basename(sourceFile),
                   "* COMMENT: " + Comment(clip.text),
                   ""]);
  }

  /** Four lines written one after another, each followed by a line break. */
  lemma TerminatedFour(lines: seq<string>)
    requires |lines| == 4
    ensures Terminated(lines, '\n') == lines[0] + "\n" + lines[1] + "\n" + lines[2] + "\n" + lines[3] + "\n"
  {
    assert lines[3..][1..] == [];
    assert Terminated(lines[3..], '\n') == lines[3] + "\n";
    assert lines[2..][1..] == lines[3..];
    assert Terminated(lines[2..], '\n') == lines[2] + "\n" + Terminated(lines[3..], '\n');
    assert lines[1..][1..] == lines[2..];
    assert Terminated(lines[1..], '\n') == lines[1] + "\n" + Terminated(lines[2..], '\n');
  }

  /** The opening writes of `generate_edl_output`: the title, the frame-count mode and a blank line. */
  method EdlHeaderText() returns (text: string)
    ensures text == Terminated(EdlHeader, '\n')
  {
    text := "TITLE: Auto-generated EDL from Retro Transcription Tool\n";
    text := text + "FCM: NON-DROP FRAME\n\n";
  }

  /**
   * The writes of `generate_edl_output`, accumulated into one string; the
   * call fails at the first clip whose timecode cannot be read.
   */
  method GenerateEdlOutput(clips: seq<Clip>, sourceFile: string) returns (result: Option<string>)
    ensures result == EdlDocument(clips, sourceFile)
  {
    var content := EdlHeaderText();
    ghost var header := content;
    ghost var written: seq<string> := [];
    EdlEventsNone(clips, sourceFile);
    var i := 0;
    while i < |clips|
      invariant 0 <= i <= |clips|
      invariant EdlEvents(clips[..i], sourceFile) == Some(written)
      invariant content == header + Terminated(written, '\n')
    {
      var event := ReadEvent(i, clips[i], sourceFile);
      if event.None? {
        EdlEventsFail(clips, sourceFile, i);
        return None;
      }
      var lines := event.value;
      var chunk := lines[0] + "\n" + lines[1] + "\n" + lines[2] + "\n" + lines[3] + "\n";
      EdlEventsStep(clips, sourceFile, i, written);
      AppendEvent(written, lines);
      AppendAssociative(header, Terminated(written, '\n'), chunk);
      content := content + chunk;
      written := written + lines;
      i := i + 1;
    }
    assert clips[..i] == clips;
    TerminatedAppend(EdlHeader, written, '\n');
    result := Some(content);
  }

  /** No clips, no events. */
  lemma EdlEventsNone(clips: seq<Clip>, sourceFile: string)
    ensures EdlEvents(clips[..0], sourceFile) == Some([])
  {
    assert EventBlocks(clips[..0], sourceFile) == [];
  }

  /** A clip whose timecode cannot be read makes the whole EDL fail. */
  lemma EdlEventsFail(clips: seq<Clip>, sourceFile: string, i: nat)
    requires i < |clips| && EventLines(i, clips[i], sourceFile).None?
    ensures EdlDocument(clips, sourceFile).None?
  {
    FlattenNone(EventBlocks(clips, sourceFile), i);
  }

  /** The events of one more clip: its four lines follow those of the clips before it. */
  lemma EdlEventsStep(clips: seq<Clip>, sourceFile: string, i: nat, done: seq<string>)
    requires i < |clips| && EventLines(i, clips[i], sourceFile).Some?
    requires EdlEvents(clips[..i], sourceFile) == Some(done)
    ensures |EventLines(i, clips[i], sourceFile).value| == 4
    ensures EdlEvents(clips[..i + 1], sourceFile) == Some(done + EventLines(i, clips[i], sourceFile).value)
  {
    EventLinesPresent(i, clips[i], sourceFile);
    BlocksStep(clips, EventOf(sourceFile), i, done);
  }

  /** One more element whose block is present extends the flattened blocks by it. */
  lemma BlocksStep<C>(xs: seq<C>, f: (nat, C) -> Option<seq<string>>, i: nat, done: seq<string>)
    requires i < |xs| && f(i, xs[i]).Some?
    requires Flatten(Blocks(xs[..i], f)) == Some(done)
    ensures Flatten(Blocks(xs[..i + 1], f)) == Some(done + f(i, xs[i]).value)
  {
    var blocks := Blocks(xs[..i + 1], f);
    assert blocks[..i] == Blocks(xs[..i], f);
    FlattenStep(blocks, i, done);
    assert blocks[..i + 1] == blocks;
  }

  /**
   * Regrouping a concatenation, stated apart from the EDL loop so that step
   * is proved without the loop's other facts in view.
   */
  lemma AppendAssociative(a: string, b: string, c: string)
    ensures (a + b) + c == a + (b + c)
  {
  }

  /** One more present block extends the result by its lines. */
  lemma FlattenStep(blocks: seq<Option<seq<string>>>, i: nat, done: seq<string>)
    requires i < |blocks| && blocks[i].Some? && Flatten(blocks[..i]) == Some(done)
    ensures Flatten(blocks[..i + 1]) == Some(done + blocks[i].value)
  {
    assert blocks[..i + 1][..i] == blocks[..i];
  }

  /** Writing an event's four lines extends the document by those lines. */
  lemma AppendEvent(written: seq<string>, lines: seq<string>)
    requires |lines| == 4
    ensures Terminated(written + lines, '\n') ==
      Terminated(written, '\n') + (lines[0] + "\n" + lines[1] + "\n" + lines[2] + "\n" + lines[3] + "\n")
  {
    TerminatedAppend(written, lines, '\n');
    TerminatedFour(lines);
  }

  /** A missing block makes the whole result missing. */
  lemma {:induction false} FlattenNone(blocks: seq<Option<seq<string>>>, i: nat)
    requires i < |blocks| && blocks[i].None?
    ensures Flatten(blocks).None?
    decreases |blocks|
  {
    var n := |blocks| - 1;
    if i < n {
      assert blocks[..n][i] == blocks[i];
      FlattenNone(blocks[..n], i);
    }
  }

  /** With every block present, the result is present. */
  lemma {:induction false} FlattenSome(blocks: seq<Option<seq<string>>>)
    requires forall i :: 0 <= i < |blocks| ==> blocks[i].Some?
    ensures Flatten(blocks).Some?
    decreases |blocks|
  {
    if blocks != [] {
      var n := |blocks| - 1;
      assert forall i :: 0 <= i < n ==> blocks[..n][i] == blocks[i];
      FlattenSome(blocks[..n]);
    }
  }

  /** Blocks of four lines each: block `i` sits at lines `4 * i` to `4 * i + 3`. */
  lemma {:induction false} FlattenShape(blocks: seq<Option<seq<string>>>, i: nat)
    requires Flatten(blocks).Some? && i < |blocks|
    requires forall j :: 0 <= j < |blocks| && blocks[j].Some? ==> |blocks[j].value| == 4
    ensures |Flatten(blocks).value| == 4 * |blocks|
    ensures blocks[i].Some? && Flatten(blocks).value[4 * i..4 * i + 4] == blocks[i].value
    decreases |blocks|
  {
    var n := |blocks| - 1;
    var front := Flatten(blocks[..n]);
    assert forall j :: 0 <= j < n ==> blocks[..n][j] == blocks[j];
    if n == 0 {
      assert front == Some([]);
    } else if i < n {
      FlattenShape(blocks[..n], i);
      var all := Flatten(blocks).value;
      assert all == front.value + blocks[n].value;
      assert all[4 * i..4 * i + 4] == front.value[4 * i..4 * i + 4];
    } else {
      FlattenShape(blocks[..n], 0);
    }
  }

  /** An event is produced exactly when the clip's timecode can be read, and it has four lines. */
  lemma EventLinesPresent(i: nat, clip: Clip, sourceFile: string)
    ensures EventLines(i, clip, sourceFile).Some? <==> ParseTimecode(clip.timecode).Some?
    ensures EventLines(i, clip, sourceFile).Some? ==> |EventLines(i, clip, sourceFile).value| == 4
  {
  }

  /** A cut lasts the segment's `duration_ms`, or 5 seconds when the segment has none. */
  lemma EventDuration(i: nat, clip: Clip, sourceFile: string, hms: Hms)
    requires ParseTimecode(clip.timecode) == Some(hms)
    ensures EventLines(i, clip, sourceFile).Some?
    ensures clip.durationMs.None? ==>
      EventLines(i, clip, sourceFile).value[0] == EventLine(i, StartTimecode(hms), EndTimecode(hms, 5000))
    ensures clip.durationMs.Some? ==>
      EventLines(i, clip, sourceFile).value[0]
        == EventLine(i, StartTimecode(hms), EndTimecode(hms, clip.durationMs.value))
  {
  }

  /** The EDL is produced exactly when every clip's timecode can be read. */
  lemma EdlDocumentSucceeds(clips: seq<Clip>, sourceFile: string)
    ensures EdlDocument(clips, sourceFile).Some? <==>
      forall i :: 0 <= i < |clips| ==> ParseTimecode(clips[i].timecode).Some?
  {
    var blocks := EventBlocks(clips, sourceFile);
    BlocksPresent(clips, sourceFile);
    FlattenSucceeds(blocks);
  }

  /** Clip `i` has its event block exactly when its timecode can be read. */
  lemma BlocksPresent(clips: seq<Clip>, sourceFile: string)
    ensures forall i :: 0 <= i < |clips| ==>
      (EventBlocks(clips, sourceFile)[i].Some? <==> ParseTimecode(clips[i].timecode).Some?)
  {
    forall i | 0 <= i < |clips|
      ensures EventBlocks(clips, sourceFile)[i].Some? <==> ParseTimecode(clips[i].timecode).Some?
    {
      EventLinesPresent(i, clips[i], sourceFile);
    }
  }

  /** The blocks flatten exactly when every block is present. */
  lemma FlattenSucceeds(blocks: seq<Option<seq<string>>>)
    ensures Flatten(blocks).Some? <==> forall i :: 0 <= i < |blocks| ==> blocks[i].Some?
  {
    if exists i :: 0 <= i < |blocks| && blocks[i].None? {
      var i :| 0 <= i < |blocks| && blocks[i].None?;
      FlattenNone(blocks, i);
    } else {
      FlattenSome(blocks);
    }
  }

  /** Every event is four lines, in clip order: event `i` is lines `4 * i` to `4 * i + 3`. */
  lemma EdlEventsShape(clips: seq<Clip>, sourceFile: string, i: nat)
    requires EdlEvents(clips, sourceFile).Some? && i < |clips|
    ensures |EdlEvents(clips, sourceFile).value| == 4 * |clips|
    ensures EventLines(i, clips[i], sourceFile).Some?
    ensures EdlEvents(clips, sourceFile).value[4 * i..4 * i + 4] == EventLines(i, clips[i], sourceFile).value
  {
    var blocks := EventBlocks(clips, sourceFile);
    forall j | 0 <= j < |blocks| && blocks[j].Some? ensures |blocks[j].value| == 4 {
      EventLinesPresent(j, clips[j], sourceFile);
    }
    FlattenShape(blocks, i);
  }

  /**
   * The carries agree with reading the total time positionally: when nothing
   * is negative the end point is the hours, minutes and milliseconds of the
   * start plus the duration.
   */
  lemma EndTimeCanonical(hours: int, minutes: int, seconds: int, durationMs: int)
    requires hours >= 0 && minutes >= 0 && seconds >= 0 && durationMs >= 0
    ensures var total := (hours * 3600 + minutes * 60 + seconds) * 1000 + durationMs;
      var e := EndTime(hours, minutes, seconds, durationMs);
      && e.hours == total / 3600000
      && e.minutes == total % 3600000 / 60000
      && e.secondsMs == total % 60000
  {
    var total := (hours * 3600 + minutes * 60 + seconds) * 1000 + durationMs;
    var e := EndTime(hours, minutes, seconds, durationMs);
    var rest := e.minutes * 60000 + e.secondsMs;
    assert 0 <= rest < 3600000;
    assert total == e.hours * 3600000 + rest;
    DivModUnique(total, 3600000, e.hours, rest);
    DivModUnique(rest, 60000, e.minutes, e.secondsMs);
    assert total == (e.hours * 60 + e.minutes) * 60000 + e.secondsMs;
    DivModUnique(total, 60000, e.hours * 60 + e.minutes, e.secondsMs);
  }

  lemma DivModUnique(a: int, b: int, q: int, r: int)
    requires b > 0 && 0 <= r < b && a == q * b + r
    ensures a / b == q && a % b == r
  {
    var d := a / b - q;
    MulBound(d, b);
    assert d * b == r - a % b;
  }

  lemma MulBound(d: int, b: int)
    requires b > 0
    ensures d >= 1 ==> d * b >= b
    ensures d <= -1 ==> d * b <= -b
  {
  }

  /** The frame field is the frame of the total time within its second. */
  lemma EndFramesOfTotal(hours: int, minutes: int, seconds: int, durationMs: int)
    requires hours >= 0 && minutes >= 0 && seconds >= 0 && durationMs >= 0
    ensures var total := (hours * 3600 + minutes * 60 + seconds) * 1000 + durationMs;
      EndFrames(EndTime(hours, minutes, seconds, durationMs).secondsMs) == (total % 1000) * 30 / 1000
  {
    var total := (hours * 3600 + minutes * 60 + seconds) * 1000 + durationMs;
    var e := EndTime(hours, minutes, seconds, durationMs);
    assert total == ((e.hours * 3600 + e.minutes * 60) + e.secondsMs / 1000) * 1000 + e.secondsMs % 1000;
    DivModUnique(total, 1000, (e.hours * 3600 + e.minutes * 60) + e.secondsMs / 1000, e.secondsMs % 1000);
  }

  /** The worked example: a cut from 00:00:58 lasting 3.5 s ends at 00:01:01, frame 15. */
  lemma EndTimecodeExample()
    ensures EndTimecode(Hms(0, 0, 58), 3500) == "00:01:01:15"
    ensures StartTimecode(Hms(0, 0, 58)) == "00:00:58:00"
  {
    assert EndTime(0, 0, 58, 3500) == EndPoint(0, 1, 1500);
    assert EndFrames(1500) == 15;
    assert WholeSeconds(1500) == 1;
    ExampleFrameTimecodes();
  }

  lemma ExampleFrameTimecodes()
    ensures FrameTimecode(0, 1, 1, 15) == "00:01:01:15"
    ensures FrameTimecode(0, 0, 58, 0) == "00:00:58:00"
  {
    PadTwoDigits(0);
    PadTwoDigits(1);
    PadTwoDigits(15);
    PadTwoDigits(58);
  }

  /** The comment never exceeds 50 characters: short texts whole, long ones cut to 47 plus "...". */
  lemma CommentBounds(text: string)
    ensures |Comment(text)| <= 50
    ensures |text| <= 50 ==> Comment(text) == text
    ensures |text| > 50 ==> |Comment(text)| == 50 && Comment(text)[..47] == text[..47] && Comment(text)[47..] == "..."
  {
  }

  /** The event fields the line is made of, as a space-separated split returns them. */
  function EventFields(i: nat, startTc: string, endTc: string): seq<string> {
    var n := PadNat(i + 1, 3);
    var st, et := startTc, endTc;
    [n, "", "AV", "", "C", "", "", "", "", "", "", "", st, et, st, et]
  }

  lemma JoinTail(st: string, et: string)
    ensures Join([st, et, st, et], ' ') == st + " " + et + " " + st + " " + et
  {
    JoinStep(st, [et], et);
    assert [st] + [et] == [st, et];
    JoinStep(et, [st, et], st + " " + et);
    assert [et] + [st, et] == [et, st, et];
    JoinStep(st, [et, st, et], et + " " + (st + " " + et));
    assert [st] + [et, st, et] == [st, et, st, et];
  }

  /** The cut field `C` and the seven empty fields after it. */
  lemma JoinCut(rest: seq<string>, t: string)
    requires rest != [] && Join(rest, ' ') == t
    ensures Join(["C"] + (Blanks(7) + rest), ' ') == "C        " + t
  {
    JoinBlanks(7, rest);
    JoinStep("C", Blanks(7) + rest, Spaces(7) + t);
    assert "C" + " " + Spaces(7) == "C        ";
    assert ("C" + " " + Spaces(7)) + t == "C" + " " + (Spaces(7) + t);
  }

  /** The empty field, the track `AV` and the empty field after it. */
  lemma JoinTrack(rest: seq<string>, t: string)
    requires rest != [] && Join(rest, ' ') == t
    ensures Join(["", "AV", ""] + rest, ' ') == " AV  " + t
  {
    JoinStep("", rest, t);
    JoinStep("AV", [""] + rest, "" + " " + t);
    JoinStep("", ["AV"] + ([""] + rest), "AV" + " " + ("" + " " + t));
    assert ["", "AV", ""] + rest == [""] + (["AV"] + ([""] + rest));
    assert "" + " " + ("AV" + " " + ("" + " " + t)) == " AV  " + t;
  }

  lemma JoinLead(n: string, rest: seq<string>, t: string)
    requires rest != [] && Join(rest, ' ') == t
    ensures Join([n, "", "AV", "", "C"] + Blanks(7) + rest, ' ') == n + "  AV  C        " + t
  {
    var cut := ["C"] + (Blanks(7) + rest);
    JoinCut(rest, t);
    var tc := "C        " + t;
    JoinTrack(cut, tc);
    JoinStep(n, ["", "AV", ""] + cut, " AV  " + tc);
    assert [n, "", "AV", "", "C"] + Blanks(7) + rest == [n] + (["", "AV", ""] + cut);
    LeadText(n, t);
  }

  lemma LeadText(n: string, t: string)
    ensures n + " " + (" AV  " + ("C        " + t)) == n + "  AV  C        " + t
  {
    assert (" AV  " + "C        ") + t == " AV  " + ("C        " + t);
    assert (n + " " + " AV  C        ") + t == n + " " + (" AV  C        " + t);
    assert n + " " + " AV  C        " == n + "  AV  C        ";
  }

  lemma JoinEventFields(n: string, st: string, et: string)
    ensures Join([n, "", "AV", "", "C", "", "", "", "", "", "", "", st, et, st, et], ' ')
         == n + "  AV  C        " + st + " " + et + " " + st + " " + et
  {
    JoinTail(st, et);
    var t := st + " " + et + " " + st + " " + et;
    JoinLead(n, [st, et, st, et], t);
    assert [n, "", "AV", "", "C"] + Blanks(7) + [st, et, st, et] == [n, "", "AV", "", "C", "", "", "", "", "", "", "", st, et, st, et];
  }

  lemma EventLineIsJoin(i: nat, st: string, et: string)
    ensures EventLine(i, st, et) == Join(EventFields(i, st, et), ' ')
  {
    JoinEventFields(PadNat(i + 1, 3), st, et);
  }

  /**
   * Splitting an event line on spaces gives the three-digit event number, the
   * track `AV`, the cut `C`, and the source in and out points followed by the
   * identical record in and out points; each timecode reads back as the start
   * with frame 0 and the carried end.
   */
  lemma EventLineFields(i: nat, hms: Hms, durationMs: int)
    ensures var st, et := StartTimecode(hms), EndTimecode(hms, durationMs);
      var e := EndTime(hms.hours, hms.minutes, hms.seconds, durationMs);
      && SplitOn(EventLine(i, st, et), ' ') == EventFields(i, st, et)
      && Fields(st) == [Some(hms.hours), Some(hms.minutes), Some(hms.seconds), Some(0)]
      && Fields(et) == [Some(e.hours), Some(e.minutes), Some(WholeSeconds(e.secondsMs)), Some(EndFrames(e.secondsMs))]
  {
    var e := EndTime(hms.hours, hms.minutes, hms.seconds, durationMs);
    var es, ef := WholeSeconds(e.secondsMs), EndFrames(e.secondsMs);
    FrameTimecodeHasNoSpace(hms.hours, hms.minutes, hms.seconds, 0);
    FrameTimecodeHasNoSpace(e.hours, e.minutes, es, ef);
    EventLineSplit(i, StartTimecode(hms), EndTimecode(hms, durationMs));
    FrameTimecodeFields(hms.hours, hms.minutes, hms.seconds, 0);
    FrameTimecodeFields(e.hours, e.minutes, es, ef);
  }

  /** An event line whose timecodes hold no space splits back into its fields. */
  lemma EventLineSplit(i: nat, st: string, et: string)
    requires ' ' !in st && ' ' !in et
    ensures SplitOn(EventLine(i, st, et), ' ') == EventFields(i, st, et)
  {
    EventLineIsJoin(i, st, et);
    var f := EventFields(i, st, et);
    forall k | 0 <= k < |f| ensures ' ' !in f[k] {
      if k == 0 {
        assert IsDigits(f[0]);
      }
    }
    SplitJoinRoundTrip(f, ' ');
  }

  /**
   * For a segment timecode made by the transcriber, the cut starts at the
   * segment's whole second and ends the duration later.
   */
  lemma EventOfDisplayTimecode(i: nat, startMs: nat, text: string, durationMs: nat, sourceFile: string)
    ensures var clip := Clip(DisplayTimecode(startMs), text, Some(durationMs));
      var hms := ParseTimecode(clip.timecode);
      && hms.Some?
      && hms.value.hours * 3600 + hms.value.minutes * 60 + hms.value.seconds == startMs / 1000
      && EventLines(i, clip, sourceFile).Some?
  {
    ParseDisplayTimecode(startMs);
  }
}
