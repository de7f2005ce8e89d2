/** Logs that keep only their most recent entries: the command history and the debug log of
    completion codes. */
module BoundedLog {
  import opened JavaInt
  import opened TextFile

  /** How many commands the history file keeps. */
  const HistoryCutoff: nat := 10

  /** How many completion codes the debug file keeps. */
  const DebugCutoff: nat := 100

  /** The smaller of two counts. */
  function Min(a: nat, b: nat): nat {
    if a < b then a else b
  }

  /** Removes the first entry while there are more than `cutoff`: what is left is the last
      `cutoff` entries (or all of them), in their original order. */
  function Evict<T>(xs: seq<T>, cutoff: nat): (r: seq<T>)
    ensures |r| == Min(|xs|, cutoff)
    ensures |xs| <= cutoff ==> r == xs
    ensures |xs| > cutoff ==> r == xs[|xs| - cutoff..]
    decreases |xs|
  {
    if |xs| > cutoff then Evict(xs[1..], cutoff) else xs
  }

  /** `updateHistoryFile`: append the command, then trim to the cutoff. */
  function UpdateHistory(command: string, history: seq<string>): (r: seq<string>)
    ensures |r| == Min(|history| + 1, HistoryCutoff)
    ensures |history| < HistoryCutoff ==> r == history + [command]
    ensures |history| >= HistoryCutoff ==> r == (history + [command])[|history| + 1 - HistoryCutoff..]
    ensures r[|r| - 1] == command
  {
    Evict(history + [command], HistoryCutoff)
  }

  /** `updateDebugFile`: append the completion code as text, then trim to the cutoff. */
  function UpdateDebug(code: int, debugLines: seq<string>): (r: seq<string>)
    ensures |r| == Min(|debugLines| + 1, DebugCutoff)
    ensures |debugLines| < DebugCutoff ==> r == debugLines + [IntToString(code)]
    ensures |debugLines| >= DebugCutoff ==> r == (debugLines + [IntToString(code)])[|debugLines| + 1 - DebugCutoff..]
    ensures r[|r| - 1] == IntToString(code)
  {
    Evict(debugLines + [IntToString(code)], DebugCutoff)
  }

  /** The history file written after recording a command reads back as the trimmed
      history, provided no entry has a line break and the command is not empty. */
  lemma HistoryFileRoundTrip(command: string, history: seq<string>)
    requires NoTerminators(command) && command != ""
    requires forall j :: 0 <= j < |history| ==> NoTerminators(history[j])
    ensures ReadAllLines(JoinLines(UpdateHistory(command, history))) == UpdateHistory(command, history)
  {
    var r := UpdateHistory(command, history);
    assert forall j :: 0 <= j < |r| ==> r[j] in history + [command];
    ReadJoinedLines(r);
  }

  /** The debug file written after recording a code reads back as the trimmed log. */
  lemma DebugFileRoundTrip(code: int, debugLines: seq<string>)
    requires forall j :: 0 <= j < |debugLines| ==> NoTerminators(debugLines[j])
    ensures ReadAllLines(TerminatedLines(UpdateDebug(code, debugLines))) == UpdateDebug(code, debugLines)
  {
    var r := UpdateDebug(code, debugLines);
    IntToStringCharacters(code);
    assert forall j :: 0 <= j < |r| ==> r[j] in debugLines + [IntToString(code)];
    ReadTerminatedLines(r);
  }
}
