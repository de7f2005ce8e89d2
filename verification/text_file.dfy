/** The text layout of the program's files: `Files.readAllLines` on the way in, and the two
    ways the program writes lines back out. */
module TextFile {

  /** The line terminators `readAllLines` recognises: `\n`, `\r` (and `\r\n` as one). */
  predicate IsTerminator(c: char) {
    c == '\n' || c == '\r'
  }

  predicate NoTerminators(s: string) {
    forall i :: 0 <= i < |s| ==> !IsTerminator(s[i])
  }

  /** The index of the first terminator in `s`, or `|s|` when there is none. */
  function LineEnd(s: string): (i: nat)
    ensures i <= |s| && forall j :: 0 <= j < i ==> !IsTerminator(s[j])
    ensures i < |s| ==> IsTerminator(s[i])
    decreases |s|
  {
    if |s| == 0 || IsTerminator(s[0]) then 0 else LineEnd(s[1..]) + 1
  }

  /** `Files.readAllLines`: the lines of `text` without their terminators. A final
      terminator does not start another line, and the empty text has no lines. */
  function ReadAllLines(text: string): (lines: seq<string>)
    ensures forall j :: 0 <= j < |lines| ==> NoTerminators(lines[j])
    decreases |text|
  {
    if |text| == 0 then []
    else
      var i := LineEnd(text);
      if i == |text| then [text]
      else
        var next := if text[i] == '\r' && i + 1 < |text| && text[i + 1] == '\n' then i + 2 else i + 1;
        [text[..i]] + ReadAllLines(text[next..])
  }

  /** `s` ends with `suffix`. */
  predicate EndsWith(s: string, suffix: string) {
    |suffix| <= |s| && s[|s| - |suffix|..] == suffix
  }

  /** The layout of the song and history files: lines joined by `\n`, with no newline after
      the last one. */
  function JoinLines(lines: seq<string>): (r: string)
    ensures |lines| == 0 ==> r == ""
    ensures |lines| > 0 ==> EndsWith(r, lines[|lines| - 1])
    decreases |lines|
  {
    if |lines| == 0 then ""
    else if |lines| == 1 then lines[0]
    else lines[0] + "\n" + JoinLines(lines[1..])
  }

  /** The layout of the debug file: every line followed by `\n`, the last one included. */
  function TerminatedLines(lines: seq<string>): (r: string)
    ensures |lines| == 0 ==> r == ""
    ensures |lines| > 0 ==> r == JoinLines(lines) + "\n"
    decreases |lines|
  {
    if |lines| == 0 then "" else lines[0] + "\n" + TerminatedLines(lines[1..])
  }

  /** Appending the same text to both keeps a suffix a suffix. */
  lemma EndsWithExtend(s: string, suffix: string, tail: string)
    requires EndsWith(s, suffix)
    ensures EndsWith(s + tail, suffix + tail)
  {
    assert (s + tail)[|s| - |suffix|..] == s[|s| - |suffix|..] + tail;
  }

  /** The debug file ends with its last line and a newline after it. */
  lemma TerminatedLinesEnd(lines: seq<string>)
    requires |lines| > 0
    ensures EndsWith(TerminatedLines(lines), lines[|lines| - 1] + "\n")
  {
    EndsWithExtend(JoinLines(lines), lines[|lines| - 1], "\n");
  }

  /** Any index that has no terminator before it and a terminator (or the end) at it is
      the line end. */
  lemma LineEndAt(s: string, i: nat)
    requires i <= |s| && forall j :: 0 <= j < i ==> !IsTerminator(s[j])
    requires i < |s| ==> IsTerminator(s[i])
    ensures LineEnd(s) == i
  {
  }

  /** A line ended by a terminator is read as that line followed by whatever comes after. */
  lemma ReadFirstLine(line: string, rest: string)
    requires NoTerminators(line)
    ensures ReadAllLines(line + "\n" + rest) == [line] + ReadAllLines(rest)
  {
    var text := line + "\n" + rest;
    LineEndAt(text, |line|);
    assert text[..|line|] == line;
    assert text[|line| + 1..] == rest;
  }

  /** A non-empty line with no terminator is read as exactly one line. */
  lemma ReadSingleLine(line: string)
    requires NoTerminators(line) && line != ""
    ensures ReadAllLines(line) == [line]
  {
    LineEndAt(line, |line|);
  }

  /** Reading back what the song and history writers produce gives the same lines, provided
      no line holds a terminator and the last line is not empty (an empty last line would
      leave nothing behind its `\n`). */
  lemma {:induction false} ReadJoinedLines(lines: seq<string>)
    requires forall j :: 0 <= j < |lines| ==> NoTerminators(lines[j])
    requires |lines| > 0 ==> lines[|lines| - 1] != ""
    ensures ReadAllLines(JoinLines(lines)) == lines
    decreases |lines|
  {
    if |lines| == 1 {
      ReadSingleLine(lines[0]);
    } else if |lines| > 1 {
      var tail := lines[1..];
      assert tail[|tail| - 1] == lines[|lines| - 1];
      assert JoinLines(lines) == lines[0] + "\n" + JoinLines(tail);
      ReadFirstLine(lines[0], JoinLines(tail));
      ReadJoinedLines(tail);
      assert [lines[0]] + tail == lines;
    }
  }

  /** Reading back the debug file gives the same lines, empty ones included. */
  lemma {:induction false} ReadTerminatedLines(lines: seq<string>)
    requires forall j :: 0 <= j < |lines| ==> NoTerminators(lines[j])
    ensures ReadAllLines(TerminatedLines(lines)) == lines
    decreases |lines|
  {
    if |lines| > 0 {
      ReadFirstLine(lines[0], TerminatedLines(lines[1..]));
      ReadTerminatedLines(lines[1..]);
    }
  }
}
