/**
 * Timecode text: the display timecode `HH:MM:SS` the transcriber attaches to a
 * segment, the `HH:MM:SS:FF` form the EDL writer emits, the reading of a
 * timecode's fields with `int()`, and the shape check the parameter store
 * applies before accepting a timecode.
 */
module Timecode {
  import opened Options
  import opened Text

  datatype Hms = Hms(hours: int, minutes: int, seconds: int)

  /**
   * `f"{h:02d}:{m:02d}:{s:02d}"` of the whole seconds of `ms`: the sub-second
   * part is dropped, and hours are not wrapped.
   */
  function DisplayTimecode(ms: nat): string {
    var t := ms / 1000;
    PadNat(t / 3600, 2) + ":" + PadNat(t % 3600 / 60, 2) + ":" + PadNat(t % 60, 2)
  }

  /** `f"{h:02d}:{m:02d}:{s:02d}:{f:02d}"`. */
  function FrameTimecode(h: int, m: int, s: int, f: int): string {
    PadInt(h, 2) + ":" + PadInt(m, 2) + ":" + PadInt(s, 2) + ":" + PadInt(f, 2)
  }

  /** `int()` of each ':'-separated field of `tc`. */
  function Fields(tc: string): seq<Option<int>> {
    var parts := SplitOn(tc, ':');
    seq(|parts|, i requires 0 <= i < |parts| => ParseInt(parts[i]))
  }

  /**
   * The hours, minutes and seconds the EDL writer reads from a timecode: the
   * first three fields; None (an `IndexError` or `ValueError`) when there are
   * fewer than three or one of them is not an integer.
   */
  function ParseTimecode(tc: string): Option<Hms> {
    var f := Fields(tc);
    if |f| < 3 || f[0].None? || f[1].None? || f[2].None? then None
    else Some(Hms(f[0].value, f[1].value, f[2].value))
  }

  /**
   * The check `update_timecode` applies: 8 characters that split on ':' into
   * exactly three parts, each two characters and all digits.
   */
  predicate WellFormedTimecode(tc: string) {
    var parts := SplitOn(tc, ':');
    |tc| == 8 && |parts| == 3 && forall i :: 0 <= i < 3 ==> |parts[i]| == 2 && IsDigits(parts[i])
  }

  /** The same check, stated on character positions: `DD:DD:DD`. */
  predicate DigitPairsShape(tc: string) {
    && |tc| == 8 && tc[2] == ':' && tc[5] == ':'
    && IsDigit(tc[0]) && IsDigit(tc[1]) && IsDigit(tc[3])
    && IsDigit(tc[4]) && IsDigit(tc[6]) && IsDigit(tc[7])
  }

  lemma ThreeParts(a: string, b: string, c: string)
    requires ':' !in a && ':' !in b && ':' !in c
    ensures SplitOn(a + ":" + b + ":" + c, ':') == [a, b, c]
  {
    var parts := [a, b, c];
    assert Join(parts[1..], ':') == b + [':'] + c by {
      assert parts[1..][1..] == [c];
    }
    assert Join(parts, ':') == a + ":" + b + ":" + c;
    SplitJoinRoundTrip(parts, ':');
  }

  lemma FourParts(a: string, b: string, c: string, d: string)
    requires ':' !in a && ':' !in b && ':' !in c && ':' !in d
    ensures SplitOn(a + ":" + b + ":" + c + ":" + d, ':') == [a, b, c, d]
  {
    var parts := [a, b, c, d];
    assert Join(parts[2..], ':') == c + [':'] + d by {
      assert parts[2..][1..] == [d];
    }
    assert Join(parts[1..], ':') == b + [':'] + (c + [':'] + d) by {
      assert parts[1..][1..] == parts[2..];
    }
    assert Join(parts, ':') == a + ":" + b + ":" + c + ":" + d;
    SplitJoinRoundTrip(parts, ':');
  }

  /** Padded numbers are made of digits and a leading minus sign at most. */
  lemma PadIntChars(n: int, w: nat)
    ensures forall i :: 0 <= i < |PadInt(n, w)| ==> IsDigit(PadInt(n, w)[i]) || PadInt(n, w)[i] == '-'
  {
    var p := PadInt(n, w);
    forall i | 0 <= i < |p| ensures IsDigit(p[i]) || p[i] == '-' {
      if n < 0 && i > 0 {
        assert p[i] == PadNat(-n, if w > 0 then w - 1 else 0)[i - 1];
      }
    }
  }

  lemma PadIntHasNoColon(n: int, w: nat)
    ensures ':' !in PadInt(n, w) && ' ' !in PadInt(n, w)
  {
    PadIntChars(n, w);
  }

  /** An EDL timecode holds no space. */
  lemma FrameTimecodeHasNoSpace(h: int, m: int, s: int, f: int)
    ensures ' ' !in FrameTimecode(h, m, s, f)
  {
    PadIntHasNoColon(h, 2);
    PadIntHasNoColon(m, 2);
    PadIntHasNoColon(s, 2);
    PadIntHasNoColon(f, 2);
  }

  /**
   * Reading a display timecode back gives the hours, minutes and seconds of
   * the whole seconds of `ms`, minutes and seconds below 60.
   */
  lemma DisplayTimecodeFields(ms: nat)
    ensures var t := ms / 1000;
      Fields(DisplayTimecode(ms)) == [Some(t / 3600), Some(t % 3600 / 60), Some(t % 60)]
  {
    var t := ms / 1000;
    var a, b, c := t / 3600, t % 3600 / 60, t % 60;
    PadIntHasNoColon(a, 2);
    PadIntHasNoColon(b, 2);
    PadIntHasNoColon(c, 2);
    ParseIntOfPadInt(a, 2);
    ParseIntOfPadInt(b, 2);
    ParseIntOfPadInt(c, 2);
    FieldsOfThree(PadInt(a, 2), PadInt(b, 2), PadInt(c, 2));
  }

  /** The fields of three colon-free parts joined by colons are `int()` of each part. */
  lemma FieldsOfThree(a: string, b: string, c: string)
    requires ':' !in a && ':' !in b && ':' !in c
    ensures Fields(a + ":" + b + ":" + c) == [ParseInt(a), ParseInt(b), ParseInt(c)]
  {
    ThreeParts(a, b, c);
  }

  /** The EDL writer reads a display timecode as the time it was made from. */
  lemma {:induction false} ParseDisplayTimecode(ms: nat)
    ensures ParseTimecode(DisplayTimecode(ms)).Some?
    ensures var hms := ParseTimecode(DisplayTimecode(ms)).value;
      && hms.hours >= 0 && 0 <= hms.minutes < 60 && 0 <= hms.seconds < 60
      && hms.hours * 3600 + hms.minutes * 60 + hms.seconds == ms / 1000
  {
    DisplayTimecodeFields(ms);
  }

  /** Every field of an EDL timecode reads back as the number written. */
  lemma FrameTimecodeFields(h: int, m: int, s: int, f: int)
    ensures Fields(FrameTimecode(h, m, s, f)) == [Some(h), Some(m), Some(s), Some(f)]
  {
    PadIntHasNoColon(h, 2);
    PadIntHasNoColon(m, 2);
    PadIntHasNoColon(s, 2);
    PadIntHasNoColon(f, 2);
    ParseIntOfPadInt(h, 2);
    ParseIntOfPadInt(m, 2);
    ParseIntOfPadInt(s, 2);
    ParseIntOfPadInt(f, 2);
    FieldsOfFour(PadInt(h, 2), PadInt(m, 2), PadInt(s, 2), PadInt(f, 2));
  }

  /** The fields of four colon-free parts joined by colons are `int()` of each part. */
  lemma FieldsOfFour(a: string, b: string, c: string, d: string)
    requires ':' !in a && ':' !in b && ':' !in c && ':' !in d
    ensures Fields(a + ":" + b + ":" + c + ":" + d) == [ParseInt(a), ParseInt(b), ParseInt(c), ParseInt(d)]
  {
    FourParts(a, b, c, d);
  }

  /** The split-based check accepts exactly the strings of the form `DD:DD:DD`. */
  lemma WellFormedTimecodeShape(tc: string)
    ensures WellFormedTimecode(tc) <==> DigitPairsShape(tc)
  {
    if DigitPairsShape(tc) {
      assert tc == tc[..2] + ":" + tc[3..5] + ":" + tc[6..];
      ThreeParts(tc[..2], tc[3..5], tc[6..]);
    }
    if WellFormedTimecode(tc) {
      var parts := SplitOn(tc, ':');
      JoinSplitRoundTrip(tc, ':');
      assert parts[1..][1..] == [parts[2]];
      assert Join(parts[1..], ':') == parts[1] + [':'] + parts[2];
      assert tc == parts[0] + [':'] + (parts[1] + [':'] + parts[2]);
      assert tc[0] == parts[0][0] && tc[1] == parts[0][1];
      assert tc[3] == parts[1][0] && tc[4] == parts[1][1];
      assert tc[6] == parts[2][0] && tc[7] == parts[2][1];
    }
  }

  /** Display timecodes below 100 hours pass the parameter store's check. */
  lemma DisplayTimecodeWellFormed(ms: nat)
    requires ms < 360000000
    ensures WellFormedTimecode(DisplayTimecode(ms))
  {
    var t := ms / 1000;
    var a, b, c := t / 3600, t % 3600 / 60, t % 60;
    PadNatTwo(a);
    PadNatTwo(b);
    PadNatTwo(c);
    PadIntHasNoColon(a, 2);
    PadIntHasNoColon(b, 2);
    PadIntHasNoColon(c, 2);
    ThreeParts(PadNat(a, 2), PadNat(b, 2), PadNat(c, 2));
  }

  /** The worked example: 3 661 000 ms is one hour, one minute and one second. */
  lemma DisplayTimecodeExample()
    ensures DisplayTimecode(3661000) == "01:01:01"
  {
  }
}
