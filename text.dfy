/**
 * Text primitives the core relies on: the character classes of Python's
 * regular expressions and `str` predicates (restricted to ASCII), lower-casing,
 * the regex-based word and sentence tokenizers, `str.split`/`str.join` on one
 * character, decimal formatting with zero padding (`f"{n:02d}"`), `int()` and
 * `float()` applied to a string, and `os.path.basename`.
 */
module Text {
  import opened Options

  // ---------------------------------------------------------------------------
  // Character classes
  // ---------------------------------------------------------------------------

  predicate IsDigit(c: char) { '0' <= c <= '9' }
  predicate IsUpper(c: char) { 'A' <= c <= 'Z' }
  predicate IsLowerLetter(c: char) { 'a' <= c <= 'z' }

  /** A character for which `str.isalnum()` holds. */
  predicate IsAlnumChar(c: char) { IsDigit(c) || IsUpper(c) || IsLowerLetter(c) }

  /** A character matched by the regex class `\w`. */
  predicate IsWordChar(c: char) { IsAlnumChar(c) || c == '_' }

  /** A character matched by the regex class `\s`. */
  predicate IsSpace(c: char) {
    c == ' ' || c == '\t' || c == '\n' || c == '\r' || c == '\U{000B}' || c == '\U{000C}'
  }

  /** A sentence terminator of the fallback sentence splitter: `[.!?]`. */
  predicate IsTerminator(c: char) { c == '.' || c == '!' || c == '?' }

  /** `str.isalnum()`: non-empty and every character alphanumeric. */
  predicate IsAlnum(s: string) {
    |s| > 0 && forall i :: 0 <= i < |s| ==> IsAlnumChar(s[i])
  }

  /** Every character a decimal digit (the empty string included). */
  predicate AllDigits(s: string) {
    forall i :: 0 <= i < |s| ==> IsDigit(s[i])
  }

  /** `str.isdigit()`: non-empty and every character a decimal digit. */
  predicate IsDigits(s: string) {
    |s| > 0 && AllDigits(s)
  }

  predicate HasNoUpper(s: string) {
    forall i :: 0 <= i < |s| ==> !IsUpper(s[i])
  }

  // ---------------------------------------------------------------------------
  // Lower-casing
  // ---------------------------------------------------------------------------

  function LowerChar(c: char): char {
    if IsUpper(c) then (c as int + 32) as char else c
  }

  /** `str.lower()`. */
  function Lower(s: string): string {
    seq(|s|, i requires 0 <= i < |s| => LowerChar(s[i]))
  }

  lemma LowerHasNoUpper(s: string)
    ensures |Lower(s)| == |s| && HasNoUpper(Lower(s))
  {
  }

  lemma LowerIdempotent(s: string)
    ensures Lower(Lower(s)) == Lower(s)
  {
  }

  /** Lower-casing keeps word characters word characters and the rest not. */
  lemma LowerKeepsWordChars(s: string)
    ensures forall i :: 0 <= i < |s| ==> (IsWordChar(Lower(s)[i]) <==> IsWordChar(s[i]))
  {
  }

  // ---------------------------------------------------------------------------
  // Word tokenizer: re.findall(r'\b\w+\b', s)
  // ---------------------------------------------------------------------------

  /** The maximal runs of word characters of `s`, left to right. */
  function Words(s: string): seq<string> {
    WordsFrom(s, "")
  }

  /** Tokenizes `s` when the run `run` of word characters is already open. */
  function WordsFrom(s: string, run: string): seq<string>
    decreases |s|
  {
    if s == [] then Flush(run)
    else if IsWordChar(s[0]) then WordsFrom(s[1..], run + [s[0]])
    else Flush(run) + WordsFrom(s[1..], "")
  }

  function Flush(run: string): seq<string> {
    if run == [] then [] else [run]
  }

  /** Every token is non-empty and made of characters of `s` that are word characters. */
  lemma {:induction false} WordsAreRuns(s: string)
    ensures forall w, i :: w in Words(s) && 0 <= i < |w| ==> IsWordChar(w[i]) && w[i] in s
    ensures forall w :: w in Words(s) ==> |w| > 0
  {
    WordsFromAreRuns(s, "");
  }

  lemma {:induction false} WordsFromAreRuns(s: string, run: string)
    requires forall i :: 0 <= i < |run| ==> IsWordChar(run[i])
    ensures forall w, i :: w in WordsFrom(s, run) && 0 <= i < |w| ==>
      IsWordChar(w[i]) && (w[i] in s || w[i] in run)
    ensures forall w :: w in WordsFrom(s, run) ==> |w| > 0
    decreases |s|
  {
    if s == [] {
    } else if IsWordChar(s[0]) {
      WordsFromAreRuns(s[1..], run + [s[0]]);
      forall w, i | w in WordsFrom(s, run) && 0 <= i < |w|
        ensures w[i] in s || w[i] in run
      {
        assert w[i] in s[1..] || w[i] in run + [s[0]];
      }
    } else {
      WordsFromAreRuns(s[1..], "");
      forall w, i | w in WordsFrom(s, run) && 0 <= i < |w|
        ensures w[i] in s || w[i] in run
      {
        if w !in Flush(run) {
          assert w in WordsFrom(s[1..], "");
          assert w[i] in s[1..];
        }
      }
    }
  }

  /** A non-word character always separates tokens: it splits the token list in two. */
  lemma {:induction false} WordsSplitAtSeparator(a: string, c: char, b: string)
    requires !IsWordChar(c)
    ensures Words(a + [c] + b) == Words(a) + Words(b)
  {
    WordsFromSplitAtSeparator(a, c, b, "");
  }

  lemma {:induction false} WordsFromSplitAtSeparator(a: string, c: char, b: string, run: string)
    requires !IsWordChar(c)
    ensures WordsFrom(a + [c] + b, run) == WordsFrom(a, run) + WordsFrom(b, "")
    decreases |a|
  {
    if a == [] {
      assert a + [c] + b == [c] + b;
      assert ([c] + b)[1..] == b;
    } else {
      assert (a + [c] + b)[0] == a[0];
      assert (a + [c] + b)[1..] == a[1..] + [c] + b;
      if IsWordChar(a[0]) {
        WordsFromSplitAtSeparator(a[1..], c, b, run + [a[0]]);
      } else {
        WordsFromSplitAtSeparator(a[1..], c, b, "");
      }
    }
  }

  /** A non-empty string of word characters is a single token. */
  lemma {:induction false} WordsOfRun(s: string)
    requires |s| > 0 && forall i :: 0 <= i < |s| ==> IsWordChar(s[i])
    ensures Words(s) == [s]
  {
    assert "" + s == s;
    WordsFromOfRun(s, "");
  }

  lemma {:induction false} WordsFromOfRun(s: string, run: string)
    requires |run + s| > 0 && forall i :: 0 <= i < |s| ==> IsWordChar(s[i])
    ensures WordsFrom(s, run) == [run + s]
    decreases |s|
  {
    if s == [] {
      assert run + s == run;
    } else {
      assert run + s == (run + [s[0]]) + s[1..];
      WordsFromOfRun(s[1..], run + [s[0]]);
    }
  }

  /** `set(re.findall(r'\b\w+\b', s.lower()))`: the lower-cased word tokens of `s`. */
  function WordSet(s: string): set<string> {
    set w | w in Words(Lower(s))
  }

  // ---------------------------------------------------------------------------
  // Sentence tokenizer: re.split(r'(?<=[.!?])\s+', s)
  // ---------------------------------------------------------------------------

  /** `s` has a terminator directly followed by whitespace: a place the splitter cuts. */
  predicate HasCut(s: string) {
    exists i :: 0 < i < |s| && CutAt(s, i)
  }

  predicate CutAt(s: string, i: int) {
    0 < i < |s| && IsTerminator(s[i - 1]) && IsSpace(s[i])
  }

  predicate EndsWithTerminator(s: string) {
    |s| > 0 && IsTerminator(s[|s| - 1])
  }

  /** Drops the leading run of whitespace. */
  function DropSpaces(s: string): (r: string)
    ensures |r| <= |s|
    ensures s != [] && IsSpace(s[0]) ==> |r| < |s|
    ensures r == [] || !IsSpace(r[0])
  {
    if s != [] && IsSpace(s[0]) then DropSpaces(s[1..]) else s
  }

  /**
   * The pieces of `s` obtained by cutting out every run of whitespace that
   * directly follows a sentence terminator.
   */
  function SplitSentences(s: string): seq<string> {
    SentencesFrom(s, "")
  }

  /** Splits `s` when the piece `piece` is already being accumulated. */
  function SentencesFrom(s: string, piece: string): seq<string>
    decreases |s|
  {
    if s == [] then [piece]
    else if EndsWithTerminator(piece) && IsSpace(s[0]) then [piece] + SentencesFrom(DropSpaces(s), "")
    else SentencesFrom(s[1..], piece + [s[0]])
  }

  /** Without a terminator followed by whitespace, the text is one sentence. */
  lemma {:induction false} SplitSentencesNoCut(s: string)
    requires !HasCut(s)
    ensures SplitSentences(s) == [s]
  {
    assert "" + s == s;
    SentencesFromNoCut(s, "");
  }

  lemma {:induction false} SentencesFromNoCut(s: string, piece: string)
    requires !HasCut(piece + s)
    ensures SentencesFrom(s, piece) == [piece + s]
    decreases |s|
  {
    if s == [] {
      assert piece + s == piece;
    } else {
      var t := piece + s;
      assert t[|piece|] == s[0];
      assert EndsWithTerminator(piece) ==> t[|piece| - 1] == piece[|piece| - 1];
      assert !CutAt(t, |piece|);
      assert t == (piece + [s[0]]) + s[1..];
      SentencesFromNoCut(s[1..], piece + [s[0]]);
    }
  }

  lemma DropSpacesAppend(p: string, q: string)
    requires p != [] && !IsSpace(p[|p| - 1])
    ensures DropSpaces(p + q) == DropSpaces(p) + q
    decreases |p|
  {
    assert (p + q)[0] == p[0];
    if IsSpace(p[0]) {
      assert (p + q)[1..] == p[1..] + q;
      DropSpacesAppend(p[1..], q);
    }
  }

  lemma DropSpacesAllSpaces(w: string, b: string)
    requires forall i :: 0 <= i < |w| ==> IsSpace(w[i])
    requires b == [] || !IsSpace(b[0])
    ensures DropSpaces(w + b) == b
    decreases |w|
  {
    if w != [] {
      assert (w + b)[1..] == w[1..] + b;
      DropSpacesAllSpaces(w[1..], b);
    } else {
      assert w + b == b;
    }
  }

  /**
   * Whitespace after a sentence that ends in a terminator is a cut: the
   * pieces of `p + w + b` are those of `p` followed by those of `b`.
   */
  lemma {:induction false} SplitSentencesAtCut(p: string, w: string, b: string)
    requires EndsWithTerminator(p)
    requires |w| > 0 && forall i :: 0 <= i < |w| ==> IsSpace(w[i])
    requires b == [] || !IsSpace(b[0])
    ensures SplitSentences(p + w + b) == SplitSentences(p) + SplitSentences(b)
  {
    assert "" + p == p;
    SentencesFromAtCut(p, w, b, "");
  }

  lemma {:induction false} SentencesFromAtCut(p: string, w: string, b: string, piece: string)
    requires EndsWithTerminator(piece + p)
    requires |w| > 0 && forall i :: 0 <= i < |w| ==> IsSpace(w[i])
    requires b == [] || !IsSpace(b[0])
    ensures SentencesFrom(p + w + b, piece) == SentencesFrom(p, piece) + SentencesFrom(b, "")
    decreases |p|, 1
  {
    if p == [] {
      assert p + w + b == w + b && piece + p == piece;
      DropSpacesAllSpaces(w, b);
    } else if EndsWithTerminator(piece) && IsSpace(p[0]) {
      SentencesFromAtCutSplit(p, w, b, piece);
    } else {
      var s := p + w + b;
      assert s[0] == p[0];
      assert s[1..] == p[1..] + w + b;
      assert (piece + [p[0]]) + p[1..] == piece + p;
      SentencesFromAtCut(p[1..], w, b, piece + [p[0]]);
    }
  }

  /** The case of the lemma above where `p` itself starts at a cut. */
  lemma {:induction false} SentencesFromAtCutSplit(p: string, w: string, b: string, piece: string)
    requires p != [] && EndsWithTerminator(p) && EndsWithTerminator(piece) && IsSpace(p[0])
    requires |w| > 0 && forall i :: 0 <= i < |w| ==> IsSpace(w[i])
    requires b == [] || !IsSpace(b[0])
    ensures SentencesFrom(p + w + b, piece) == SentencesFrom(p, piece) + SentencesFrom(b, "")
    decreases |p|, 0
  {
    var s := p + (w + b);
    assert p + w + b == s;
    assert s[0] == p[0];
    var d := DropSpaces(p);
    DropSpacesKeepsLast(p);
    DropSpacesAppend(p, w + b);
    assert "" + d == d;
    assert d + w + b == d + (w + b);
    SentencesFromAtCut(d, w, b, "");
    calc {
      SentencesFrom(s, piece);
      [piece] + SentencesFrom(DropSpaces(s), "");
      [piece] + SentencesFrom(d + w + b, "");
      [piece] + (SentencesFrom(d, "") + SentencesFrom(b, ""));
      ([piece] + SentencesFrom(d, "")) + SentencesFrom(b, "");
      SentencesFrom(p, piece) + SentencesFrom(b, "");
    }
  }

  /** Dropping leading whitespace keeps a final non-space character. */
  lemma DropSpacesKeepsLast(p: string)
    requires p != [] && !IsSpace(p[|p| - 1])
    ensures DropSpaces(p) != [] && DropSpaces(p)[|DropSpaces(p)| - 1] == p[|p| - 1]
    decreases |p|
  {
    if IsSpace(p[0]) {
      DropSpacesKeepsLast(p[1..]);
    }
  }

  // ---------------------------------------------------------------------------
  // str.split(sep) and sep.join(parts) on one separator character
  // ---------------------------------------------------------------------------

  /** `s.split(sep)`: the pieces between occurrences of `sep` (at least one). */
  function SplitOn(s: string, sep: char): seq<string> {
    SplitFrom(s, sep, "")
  }

  function SplitFrom(s: string, sep: char, cur: string): (r: seq<string>)
    ensures |r| > 0
    decreases |s|
  {
    if s == [] then [cur]
    else if s[0] == sep then [cur] + SplitFrom(s[1..], sep, "")
    else SplitFrom(s[1..], sep, cur + [s[0]])
  }

  /** `sep.join(parts)`. */
  function Join(parts: seq<string>, sep: char): string {
    if |parts| == 0 then ""
    else if |parts| == 1 then parts[0]
    else parts[0] + [sep] + Join(parts[1..], sep)
  }

  lemma {:induction false} SplitFromFree(x: string, sep: char, cur: string)
    requires sep !in x
    ensures SplitFrom(x, sep, cur) == [cur + x]
    decreases |x|
  {
    if x == [] {
      assert cur + x == cur;
    } else {
      assert cur + x == (cur + [x[0]]) + x[1..];
      SplitFromFree(x[1..], sep, cur + [x[0]]);
    }
  }

  lemma {:induction false} SplitFromSep(x: string, sep: char, rest: string, cur: string)
    requires sep !in x
    ensures SplitFrom(x + [sep] + rest, sep, cur) == [cur + x] + SplitFrom(rest, sep, "")
    decreases |x|
  {
    var s := x + [sep] + rest;
    if x == [] {
      assert s[0] == sep && s[1..] == rest;
      assert cur + x == cur;
    } else {
      assert s[0] == x[0] && s[1..] == x[1..] + [sep] + rest;
      assert cur + x == (cur + [x[0]]) + x[1..];
      SplitFromSep(x[1..], sep, rest, cur + [x[0]]);
    }
  }

  /** Splitting a join recovers the parts, when no part contains the separator. */
  lemma {:induction false} SplitJoinRoundTrip(parts: seq<string>, sep: char)
    requires |parts| > 0
    requires forall k :: 0 <= k < |parts| ==> sep !in parts[k]
    ensures SplitOn(Join(parts, sep), sep) == parts
    decreases |parts|
  {
    if |parts| == 1 {
      SplitFromFree(parts[0], sep, "");
      assert "" + parts[0] == parts[0];
    } else {
      SplitFromSep(parts[0], sep, Join(parts[1..], sep), "");
      assert "" + parts[0] == parts[0];
      SplitJoinRoundTrip(parts[1..], sep);
      assert parts == [parts[0]] + parts[1..];
    }
  }

  /** Joining the pieces of a split gives the original string back. */
  lemma JoinSplitRoundTrip(s: string, sep: char)
    ensures Join(SplitOn(s, sep), sep) == s
  {
    JoinSplitFrom(s, sep, "");
    assert "" + s == s;
  }

  lemma {:induction false} JoinSplitFrom(s: string, sep: char, cur: string)
    ensures Join(SplitFrom(s, sep, cur), sep) == cur + s
    decreases |s|
  {
    if s == [] {
      assert cur + s == cur;
    } else if s[0] == sep {
      var rest := SplitFrom(s[1..], sep, "");
      JoinSplitFrom(s[1..], sep, "");
      assert ([cur] + rest)[1..] == rest;
      assert "" + s[1..] == s[1..];
      assert cur + s == cur + [sep] + s[1..];
    } else {
      JoinSplitFrom(s[1..], sep, cur + [s[0]]);
      assert cur + s == (cur + [s[0]]) + s[1..];
    }
  }

  /** The length of a join: the parts plus one separator between each two. */
  lemma {:induction false} JoinLength(parts: seq<string>, sep: char)
    requires |parts| > 0
    ensures |Join(parts, sep)| == TotalLength(parts) + |parts| - 1
    decreases |parts|
  {
    if |parts| > 1 {
      JoinLength(parts[1..], sep);
    }
  }

  function TotalLength(parts: seq<string>): nat {
    if parts == [] then 0 else |parts[0]| + TotalLength(parts[1..])
  }

  lemma JoinCons(a: string, rest: seq<string>, sep: char)
    requires rest != []
    ensures Join([a] + rest, sep) == a + [sep] + Join(rest, sep)
  {
    assert ([a] + rest)[1..] == rest;
  }

  /** `k` spaces. */
  function Spaces(k: nat): string {
    seq(k, _ => ' ')
  }

  /** `k` empty strings. */
  function Blanks(k: nat): seq<string> {
    seq(k, _ => "")
  }

  lemma JoinBlanks(k: nat, rest: seq<string>)
    requires rest != []
    ensures Join(Blanks(k) + rest, ' ') == Spaces(k) + Join(rest, ' ')
  {
    if k == 0 {
      assert Blanks(k) + rest == rest;
      assert Spaces(k) + Join(rest, ' ') == Join(rest, ' ');
    } else {
      var b := Blanks(k - 1);
      assert Blanks(k) + rest == [""] + (b + rest);
      JoinBlanks(k - 1, rest);
      JoinCons("", b + rest, ' ');
      var j := Join(rest, ' ');
      assert Join(Blanks(k) + rest, ' ') == "" + [' '] + (Spaces(k - 1) + j);
      assert Spaces(k) == [' '] + Spaces(k - 1);
      assert "" + [' '] + (Spaces(k - 1) + j) == ([' '] + Spaces(k - 1)) + j;
    }
  }

  lemma JoinStep(a: string, rest: seq<string>, r: string)
    requires rest != [] && Join(rest, ' ') == r
    ensures Join([a] + rest, ' ') == a + " " + r
  {
    JoinCons(a, rest, ' ');
  }

  /** Each line followed by `sep`: what writing the lines one after another produces. */
  function Terminated(lines: seq<string>, sep: char): string
    decreases |lines|
  {
    if lines == [] then "" else lines[0] + [sep] + Terminated(lines[1..], sep)
  }

  lemma {:induction false} TerminatedAppend(a: seq<string>, b: seq<string>, sep: char)
    ensures Terminated(a + b, sep) == Terminated(a, sep) + Terminated(b, sep)
    decreases |a|
  {
    if a == [] {
      assert a + b == b;
    } else {
      assert (a + b)[1..] == a[1..] + b;
      TerminatedAppend(a[1..], b, sep);
    }
  }

  /** Terminated lines are the lines joined, with one empty line after the last separator. */
  lemma {:induction false} TerminatedIsJoin(lines: seq<string>, sep: char)
    ensures Terminated(lines, sep) == Join(lines + [""], sep)
    decreases |lines|
  {
    if lines != [] {
      TerminatedIsJoin(lines[1..], sep);
      assert lines + [""] == [lines[0]] + (lines[1..] + [""]);
      JoinCons(lines[0], lines[1..] + [""], sep);
    }
  }

  /** Splitting terminated lines on the separator gives the lines back, and a last empty piece. */
  lemma SplitTerminated(lines: seq<string>, sep: char)
    requires forall k :: 0 <= k < |lines| ==> sep !in lines[k]
    ensures SplitOn(Terminated(lines, sep), sep) == lines + [""]
  {
    TerminatedIsJoin(lines, sep);
    SplitJoinRoundTrip(lines + [""], sep);
  }

  /** `SplitTerminated` for lines given in two runs. */
  lemma SplitTerminatedConcat(a: seq<string>, b: seq<string>, sep: char)
    requires forall k :: 0 <= k < |a| ==> sep !in a[k]
    requires forall k :: 0 <= k < |b| ==> sep !in b[k]
    ensures SplitOn(Terminated(a + b, sep), sep) == a + b + [""]
  {
    forall k | 0 <= k < |a + b| ensures sep !in (a + b)[k] {
      if k >= |a| {
        assert (a + b)[k] == b[k - |a|];
      }
    }
    SplitTerminated(a + b, sep);
  }

  // ---------------------------------------------------------------------------
  // Decimal numbers
  // ---------------------------------------------------------------------------

  function DigitChar(d: nat): char
    requires d < 10
  {
    ('0' as int + d) as char
  }

  function DigitValue(c: char): nat
    requires IsDigit(c)
  {
    c as int - '0' as int
  }

  /** The decimal representation of `n`, without leading zeros. */
  function DecimalString(n: nat): (r: string)
    ensures IsDigits(r)
    ensures |r| > 1 ==> r[0] != '0'
    decreases n
  {
    if n < 10 then [DigitChar(n)] else DecimalString(n / 10) + [DigitChar(n % 10)]
  }

  /** The value of a string of decimal digits (0 for the empty string). */
  function DigitsValue(s: string): nat
    requires AllDigits(s)
    decreases |s|
  {
    if s == [] then 0 else DigitsValue(s[..|s| - 1]) * 10 + DigitValue(s[|s| - 1])
  }

  lemma {:induction false} DecimalRoundTrip(n: nat)
    ensures DigitsValue(DecimalString(n)) == n
    decreases n
  {
    if n >= 10 {
      var d := DecimalString(n / 10) + [DigitChar(n % 10)];
      assert d[..|d| - 1] == DecimalString(n / 10);
      DecimalRoundTrip(n / 10);
    }
  }

  function Zeros(k: nat): (r: string)
    ensures |r| == k && AllDigits(r)
  {
    seq(k, _ => '0')
  }

  lemma {:induction false} LeadingZerosValue(k: nat, s: string)
    requires AllDigits(s)
    ensures AllDigits(Zeros(k) + s) && DigitsValue(Zeros(k) + s) == DigitsValue(s)
    decreases |s|
  {
    var z := Zeros(k) + s;
    assert AllDigits(z) by {
      forall i | 0 <= i < |z| ensures IsDigit(z[i]) {
        if i < k { assert z[i] == Zeros(k)[i]; } else { assert z[i] == s[i - k]; }
      }
    }
    if s == [] {
      assert z == Zeros(k);
      ZerosValue(k);
    } else {
      assert z[..|z| - 1] == Zeros(k) + s[..|s| - 1];
      LeadingZerosValue(k, s[..|s| - 1]);
    }
  }

  lemma {:induction false} ZerosValue(k: nat)
    ensures DigitsValue(Zeros(k)) == 0
    decreases k
  {
    if k > 0 {
      assert Zeros(k)[..k - 1] == Zeros(k - 1);
      ZerosValue(k - 1);
    }
  }

  /** `f"{n:0{width}d}"` for `n >= 0`: the decimal digits, left-padded with zeros to `width`. */
  function PadNat(n: nat, width: nat): (r: string)
    ensures IsDigits(r)
  {
    var d := DecimalString(n);
    var z := Zeros(if width > |d| then width - |d| else 0);
    assert AllDigits(z + d) by {
      forall i | 0 <= i < |z + d| ensures IsDigit((z + d)[i]) {
        if i < |z| { assert (z + d)[i] == z[i]; } else { assert (z + d)[i] == d[i - |z|]; }
      }
    }
    z + d
  }

  /** `f"{n:0{width}d}"` for any integer: the sign counts toward the width. */
  function PadInt(n: int, width: nat): string {
    if n < 0 then "-" + PadNat(-n, if width > 0 then width - 1 else 0) else PadNat(n, width)
  }

  lemma PadNatValue(n: nat, width: nat)
    ensures DigitsValue(PadNat(n, width)) == n
  {
    var d := DecimalString(n);
    LeadingZerosValue(if width > |d| then width - |d| else 0, d);
    DecimalRoundTrip(n);
  }

  /** Two-digit padding of a number below 100 is exactly two digits. */
  lemma PadNatTwo(n: nat)
    requires n < 100
    ensures |PadNat(n, 2)| == 2
  {
    if n >= 10 {
      assert DecimalString(n) == DecimalString(n / 10) + [DigitChar(n % 10)];
    }
  }

  /** Two-digit padding of a number below 100: its tens digit, then its units digit. */
  lemma PadTwoDigits(n: nat)
    requires n < 100
    ensures PadNat(n, 2) == [DigitChar(n / 10), DigitChar(n % 10)]
  {
    if n >= 10 {
      assert DecimalString(n) == DecimalString(n / 10) + [DigitChar(n % 10)];
    } else {
      assert Zeros(1) == ['0'];
    }
  }

  // ---------------------------------------------------------------------------
  // int() and float() applied to a string
  // ---------------------------------------------------------------------------

  /** `str.strip()` of whitespace on both ends. */
  function Strip(s: string): (r: string)
    ensures r == [] || (!IsSpace(r[0]) && !IsSpace(r[|r| - 1]))
    ensures |r| <= |s|
    decreases |s|
  {
    if s == [] then []
    else if IsSpace(s[0]) then Strip(s[1..])
    else if IsSpace(s[|s| - 1]) then Strip(s[..|s| - 1])
    else s
  }

  function ApplySign(negative: bool, v: nat): int {
    if negative then -(v as int) else v
  }

  predicate IsSign(c: char) { c == '+' || c == '-' }

  /**
   * `int(s)` for a string: surrounding whitespace, an optional sign, then
   * one or more decimal digits; anything else is a `ValueError` (None).
   */
  function ParseInt(s: string): Option<int> {
    var t := Strip(s);
    if |t| > 0 && IsSign(t[0]) && IsDigits(t[1..]) then Some(ApplySign(t[0] == '-', DigitsValue(t[1..])))
    else if IsDigits(t) then Some(DigitsValue(t))
    else None
  }

  lemma StripNoSpaces(s: string)
    requires s == [] || (!IsSpace(s[0]) && !IsSpace(s[|s| - 1]))
    ensures Strip(s) == s
  {
  }

  /** Parsing a zero-padded rendering gives the number back. */
  lemma ParseIntOfPadInt(n: int, width: nat)
    ensures ParseInt(PadInt(n, width)) == Some(n)
  {
    var p := PadInt(n, width);
    if n < 0 {
      var q := PadNat(-n, if width > 0 then width - 1 else 0);
      assert p == "-" + q && p[1..] == q;
      StripNoSpaces(p);
      PadNatValue(-n, if width > 0 then width - 1 else 0);
    } else {
      StripNoSpaces(p);
      PadNatValue(n, width);
    }
  }

  function Pow10(k: nat): (r: nat)
    ensures r >= 1
  {
    if k == 0 then 1 else 10 * Pow10(k - 1)
  }

  /** Index of the first '.' in `s`, or `|s|` when there is none. */
  function DotIndex(s: string): (k: nat)
    ensures k <= |s| && '.' !in s[..k] && (k < |s| ==> s[k] == '.')
  {
    if s == [] then 0
    else if s[0] == '.' then 0
    else
      var k := 1 + DotIndex(s[1..]);
      assert s[..k] == [s[0]] + s[1..][..k - 1];
      k
  }

  /** The value of `digits[.digits]` with at least one digit; None otherwise. */
  function UnsignedDecimal(t: string): Option<real> {
    var k := DotIndex(t);
    var whole := t[..k];
    var frac := if k < |t| then t[k + 1..] else "";
    if AllDigits(whole) && AllDigits(frac) && |whole| + |frac| > 0
    then Some(DigitsValue(whole) as real + DigitsValue(frac) as real / Pow10(|frac|) as real)
    else None
  }

  /**
   * `float(s)` for a string: surrounding whitespace, an optional sign, then
   * decimal digits with at most one decimal point; anything else is a
   * `ValueError` (None).
   */
  function ParseReal(s: string): Option<real> {
    var t := Strip(s);
    if |t| > 0 && IsSign(t[0]) then
      match UnsignedDecimal(t[1..])
      case Some(v) => Some(if t[0] == '-' then -v else v)
      case None => None
    else UnsignedDecimal(t)
  }

  /** `float()` accepts every plain digit string, with the value `int()` gives it. */
  lemma ParseRealOfDigits(s: string)
    requires IsDigits(s)
    ensures ParseReal(s) == Some(DigitsValue(s) as real)
  {
    StripNoSpaces(s);
    DotIndexNoDot(s);
    assert s[..|s|] == s;
  }

  lemma DotIndexNoDot(s: string)
    requires AllDigits(s)
    ensures DotIndex(s) == |s|
  {
    if s != [] {
      DotIndexNoDot(s[1..]);
    }
  }

  // ---------------------------------------------------------------------------
  // os.path.basename
  // ---------------------------------------------------------------------------

  /** `os.path.basename(path)`: the longest suffix of `path` without a '/'. */
  function Basename(path: string): (r: string)
    ensures '/' !in r
    ensures |r| <= |path| && r == path[|path| - |r|..]
    ensures |r| < |path| ==> path[|path| - |r| - 1] == '/'
    decreases |path|
  {
    if path == [] then []
    else if path[|path| - 1] == '/' then []
    else
      var init := path[..|path| - 1];
      var b := Basename(init);
      assert path[|path| - |b| - 1..] == init[|init| - |b|..] + [path[|path| - 1]];
      b + [path[|path| - 1]]
  }
}
