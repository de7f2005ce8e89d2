/** The commands of `Main`, each a function of the session it runs in and of the console
    lines it may read. A handler's `result` is the song list it returns (`None` is Java's
    `null`: nothing to save), `logged` the entry it adds to the command history, `states`
    the undo stack afterwards, `shown` what a listing command prints, and `rest` the
    console lines it did not read. */
module Commands {
  import opened Results
  import opened JavaInt
  import opened AsciiCase
  import opened TextFile
  import opened SongRecord
  import opened SongStore
  import opened UndoStack
  import opened Prompt

  /** The ten commands of the dispatch table. */
  datatype Command = AllSongs | PlaysOver | Add | Remove | Undo | Help | History | Exit | Update | Debug

  /** What a command runs against: the list loaded at the top of the loop, the lines of the
      song file it came from (`update` reads the file again), the history, and the undo
      stack. */
  datatype Session = Session(store: seq<Song>, songFile: seq<string>, history: seq<string>, states: seq<seq<Song>>)

  /** A finished command, or `Crashed` for an exception nothing catches (console input ran
      out, or a bad play count in the song file during `update`). */
  datatype Handled =
    | Handled(result: Option<seq<Song>>, logged: Option<string>, states: seq<seq<Song>>,
              shown: Option<Listing>, rest: seq<string>)
    | Crashed

  /** The list `Main.exit` hands back: one song with play count -1. `Main.exit` is not part
      of this model; this is one list meeting the test `takeCommand` applies to it. */
  const ExitSentinel: seq<Song> := [Song("", "", -1)]

  /** The test `takeCommand` uses to recognise the exit command's result. */
  predicate IsExitSignal(lines: seq<Song>) {
    |lines| == 1 && lines[0].plays == -1
  }

  /** The sentinel that abandons `add`, `remove` and `update`, in any letter case. */
  predicate IsBack(line: string) {
    EqualsIgnoreCase(line, "back")
  }

  /** The command read some console lines and left the rest. */
  predicate ReadPrefix(h: Handled, inputs: seq<string>) {
    h.Handled? ==> |h.rest| <= |inputs| && Suffix(h.rest, inputs)
  }

  /** A command that returns `null` and records nothing. */
  function NoChange(s: Session, rest: seq<string>): Handled {
    Handled(None, None, s.states, None, rest)
  }

  /** `printSongs`: lists the names; the history records `all_songs` only when there was
      something to list. */
  function ShowAllSongs(s: Session, inputs: seq<string>): (h: Handled)
    ensures h.Handled? && h.result.None? && h.states == s.states && h.rest == inputs
    ensures h.logged.Some? <==> |s.store| > 0
    ensures h.logged.Some? ==> h.logged.value == "all_songs"
    ensures h.shown.Some? && h.shown.value.names == Names(s.store) && (h.shown.value.emptyNotice <==> |s.store| == 0)
  {
    Handled(None, if |s.store| == 0 then None else Some("all_songs"), s.states, Some(PrintSongs(s.store)), inputs)
  }

  /** The sentinel that abandons `plays_over`: exactly `back`, letter case included. */
  predicate IsExactBack(line: string) {
    line == "back"
  }

  /** `playsOver`: asks for a minimum until it gets an `int` (negative ones too) or exactly
      `back`, then lists the songs above it and records the minimum as printed by Java. */
  function PlaysOverFlow(s: Session, inputs: seq<string>): (h: Handled)
    ensures h.Handled? ==> h.result.None? && h.states == s.states
    ensures |inputs| > 0 && inputs[0] == "back" ==> h == NoChange(s, inputs[1..])
    ensures ReadPrefix(h, inputs)
    ensures h.Crashed? ==> AllRejected(inputs, IsExactBack, ParseInt)
    ensures h.Handled? ==> var k := |inputs| - |h.rest| - 1;
      && FirstAnswer(inputs, IsExactBack, ParseInt, k)
      && (h.logged.None? <==> inputs[k] == "back")
  {
    PlaysOverOf(s, Ask(inputs, IsExactBack, ParseInt))
  }

  /** What `playsOver` does once the prompt has answered. */
  function PlaysOverOf(s: Session, a: Answer<int32>): Handled {
    match a
    case Exhausted => Crashed
    case Back(rest) => NoChange(s, rest)
    case Accepted(m, _, rest) =>
      Handled(None, Some("plays_over " + IntToString(m as int)), s.states, Some(PrintSongsOverNum(s.store, m)), rest)
  }

  /** The minimum a `plays_over` that listed songs read: the value of the line that ended
      the prompt, which is what it lists by and records. */
  lemma PlaysOverMinimum(s: Session, inputs: seq<string>) returns (m: int32)
    requires PlaysOverFlow(s, inputs).Handled? && PlaysOverFlow(s, inputs).logged.Some?
    ensures var h := PlaysOverFlow(s, inputs);
      && ParseInt(inputs[|inputs| - |h.rest| - 1]) == Some(m)
      && h.logged == Some("plays_over " + IntToString(m as int)) && h.shown == Some(PrintSongsOverNum(s.store, m))
  {
    var a := Ask(inputs, IsExactBack, ParseInt);
    assert PlaysOverFlow(s, inputs) == PlaysOverOf(s, a);
    m := a.value;
  }

  /** A song typed on the console, or `None` when `makeSongFromInput` throws. */
  function ParseSong(line: string): (r: Option<Song>)
    ensures r.Some? <==> MakeSongFromInput(line).Ok?
    ensures r.Some? ==> MakeSongFromInput(line) == Ok(r.value)
  {
    MakeSongFromInput(line).ToOption()
  }

  /** `add`: asks for `name, artist, plays` until a line parses or is `back`; the parsed song
      goes at the end of the list and the line is recorded. */
  function AddFlow(s: Session, inputs: seq<string>): (h: Handled)
    ensures h.Handled? ==> h.states == s.states && (h.result.Some? <==> h.logged.Some?)
    ensures |inputs| > 0 && IsBack(inputs[0]) ==> h == NoChange(s, inputs[1..])
    ensures ReadPrefix(h, inputs)
    ensures h.Crashed? ==> AllRejected(inputs, IsBack, ParseSong)
    ensures h.Handled? ==> var k := |inputs| - |h.rest| - 1;
      && FirstAnswer(inputs, IsBack, ParseSong, k)
      && (h.result.None? <==> IsBack(inputs[k]))
      && (h.result.Some? ==> && MakeSongFromInput(inputs[k]).Ok?
                             && h.result.value == s.store + [MakeSongFromInput(inputs[k]).value]
                             && h.logged == Some("add " + inputs[k]))
  {
    match Ask(inputs, IsBack, ParseSong)
    case Exhausted => Crashed
    case Back(rest) => NoChange(s, rest)
    case Accepted(song, line, rest) => Handled(Some(s.store + [song]), Some("add " + line), s.states, None, rest)
  }

  /** Accepts a name when some song has it, answering with the list without that song. */
  function Remover(store: seq<Song>): string -> Option<seq<Song>> {
    line => RemoveSong(store, line)
  }

  /** `remove`: asks for a name until some song has it or the line is `back`; the first song
      with that name is removed and the name is recorded. */
  function RemoveFlow(s: Session, inputs: seq<string>): (h: Handled)
    ensures h.Handled? ==> h.states == s.states && (h.result.Some? <==> h.logged.Some?)
    ensures |inputs| > 0 && IsBack(inputs[0]) ==> h == NoChange(s, inputs[1..])
    ensures ReadPrefix(h, inputs)
    ensures h.Crashed? ==> AllRejected(inputs, IsBack, Remover(s.store))
    ensures h.Handled? ==> var k := |inputs| - |h.rest| - 1;
      && FirstAnswer(inputs, IsBack, Remover(s.store), k)
      && (h.result.None? <==> IsBack(inputs[k]))
      && (h.result.Some? ==> && RemoveSong(s.store, inputs[k]) == Some(h.result.value)
                             && h.logged == Some("remove " + inputs[k]))
  {
    match Ask(inputs, IsBack, Remover(s.store))
    case Exhausted => Crashed
    case Back(rest) => NoChange(s, rest)
    case Accepted(remaining, line, rest) => Handled(Some(remaining), Some("remove " + line), s.states, None, rest)
  }

  /** The line an `add` that saved a song read it from. */
  lemma AddedLine(s: Session, inputs: seq<string>) returns (line: string)
    requires AddFlow(s, inputs).Handled? && AddFlow(s, inputs).result.Some?
    ensures var h := AddFlow(s, inputs);
      && line in inputs && !IsBack(line) && h.logged == Some("add " + line)
      && MakeSongFromInput(line).Ok? && h.result.value == s.store + [MakeSongFromInput(line).value]
  {
    line := Ask(inputs, IsBack, ParseSong).line;
  }

  /** The line a `remove` that removed a song read its name from. */
  lemma RemovedName(s: Session, inputs: seq<string>) returns (line: string)
    requires RemoveFlow(s, inputs).Handled? && RemoveFlow(s, inputs).result.Some?
    ensures var h := RemoveFlow(s, inputs);
      && line in inputs && !IsBack(line) && h.logged == Some("remove " + line)
      && RemoveSong(s.store, line) == Some(h.result.value)
  {
    line := Ask(inputs, IsBack, Remover(s.store)).line;
  }

  /** `undo`: with no stored state, nothing happens; otherwise the most recent state comes
      off the stack, is returned, and `undo` is recorded. */
  function UndoChange(s: Session, inputs: seq<string>): (h: Handled)
    ensures h.Handled? && h.rest == inputs && h.shown.None?
    ensures |s.states| == 0 ==> h == NoChange(s, inputs)
    ensures |s.states| > 0 ==> && h.result == Some(s.states[|s.states| - 1])
                               && h.states + [h.result.value] == s.states
                               && h.logged == Some("undo")
  {
    match Pop(s.states)
    case None => NoChange(s, inputs)
    case Some(p) => Handled(Some(p.top), Some("undo"), p.rest, None, inputs)
  }

  /** `help`: prints the command list (not modelled) and records `help`. */
  function ShowHelp(s: Session, inputs: seq<string>): (h: Handled)
    ensures h.Handled? && h.result.None? && h.logged == Some("help")
    ensures h.states == s.states && h.rest == inputs
  {
    Handled(None, Some("help"), s.states, None, inputs)
  }

  /** `printList` on the history: shows it and records nothing. */
  function ShowHistory(s: Session, inputs: seq<string>): (h: Handled)
    ensures h.Handled? && h.result.None? && h.logged.None?
    ensures h.shown == Some(Listing(s.history, false))
    ensures h.states == s.states && h.rest == inputs
  {
    Handled(None, None, s.states, Some(Listing(s.history, false)), inputs)
  }

  /** `Main.exit`: hands back the exit sentinel. */
  function ExitProgram(s: Session, inputs: seq<string>): Handled {
    Handled(Some(ExitSentinel), None, s.states, None, inputs)
  }

  /** `printCompletionCodes`: prints the debug file (not modelled) and returns `null`. */
  function ShowCompletionCodes(s: Session, inputs: seq<string>): Handled {
    NoChange(s, inputs)
  }

  /** The index of the first song with this name, if there is one. */
  function LocateSong(lines: seq<Song>, name: string): (r: Option<int>)
    ensures r.Some? ==> 0 <= r.value < |lines| && lines[r.value].name == name
  {
    var i := FindLineByName(lines, name);
    if i < 0 then None else Some(i)
  }

  /** No index is found exactly when no stored song has the name; a found index is the
      first with it. */
  lemma LocateSongFindsFirst(lines: seq<Song>, name: string)
    ensures LocateSong(lines, name).None? <==> forall j {:trigger lines[j].name} :: 0 <= j < |lines| ==> lines[j].name != name
    ensures LocateSong(lines, name).Some? ==>
      forall j {:trigger lines[j].name} :: 0 <= j < LocateSong(lines, name).value ==> lines[j].name != name
  {
    FindLineByNameIsFirst(lines, name);
  }

  /** `updateInputLoop`: asks for new details until a line parses or is `back`, then
      replaces the song at `index` with the parsed one. */
  function UpdateInputLoop(lines: seq<Song>, index: int, inputs: seq<string>): (a: Answer<seq<Song>>)
    requires 0 <= index < |lines|
    ensures a.Accepted? ==> && |a.value| == |lines|
                            && (forall j :: 0 <= j < |lines| && j != index ==> a.value[j] == lines[j])
                            && a.line in inputs && !IsBack(a.line) && MakeSongFromInput(a.line) == Ok(a.value[index])
    ensures |inputs| > 0 && IsBack(inputs[0]) ==> a == Back(inputs[1..])
    ensures a.Back? || a.Accepted? ==> |a.rest| < |inputs| && Suffix(a.rest, inputs)
    ensures a.Back? ==> IsBack(inputs[|inputs| - |a.rest| - 1])
    ensures a.Accepted? ==> && a.line == inputs[|inputs| - |a.rest| - 1]
                            && a.value == lines[index := MakeSongFromInput(a.line).value]
  {
    match Ask(inputs, IsBack, ParseSong)
    case Exhausted => Exhausted
    case Back(rest) => Back(rest)
    case Accepted(song, line, rest) =>
      assert line == inputs[|inputs| - |rest| - 1];
      Accepted(lines[index := song], line, rest)
  }

  /** The second half of `update`: the details prompt for the song at `index`. */
  function UpdateFound(s: Session, lines: seq<Song>, index: int, inputs: seq<string>): (h: Handled)
    requires 0 <= index < |lines|
    ensures ReadPrefix(h, inputs)
    ensures h.Handled? ==> h.logged.None? && h.states == s.states && h.shown.None?
    ensures h.Handled? ==> var k := |inputs| - |h.rest| - 1;
      && 0 <= k < |inputs|
      && (h.result.None? <==> IsBack(inputs[k]))
      && (h.result.Some? ==> && MakeSongFromInput(inputs[k]).Ok?
                             && h.result.value == lines[index := MakeSongFromInput(inputs[k]).value])
  {
    match UpdateInputLoop(lines, index, inputs)
    case Exhausted => Crashed
    case Back(rest) => NoChange(s, rest)
    case Accepted(updated, line, rest) =>
      Handled(Some(updated), None, s.states, None, rest)
  }

  /** The details prompt of `update` ends at the first line that is `back` or parses, and
      crashes only when every line was rejected. */
  lemma {:induction false} UpdateFoundAnswersFirst(s: Session, lines: seq<Song>, index: int, inputs: seq<string>)
    requires 0 <= index < |lines|
    ensures var h := UpdateFound(s, lines, index, inputs);
      && (h.Crashed? ==> AllRejected(inputs, IsBack, ParseSong))
      && (h.Handled? ==> FirstAnswer(inputs, IsBack, ParseSong, |inputs| - |h.rest| - 1))
  {
    match Ask(inputs, IsBack, ParseSong)
    case Exhausted =>
      assert UpdateInputLoop(lines, index, inputs).Exhausted?;
    case Back(rest) =>
      assert UpdateFound(s, lines, index, inputs) == NoChange(s, rest);
    case Accepted(song, line, rest) =>
      assert UpdateInputLoop(lines, index, inputs).rest == rest;
  }

  /** The first prompt of `update`: asks for a name until some song has it or the line is
      `back`, and answers with the position of the first song of that name. */
  function LocateLoop(lines: seq<Song>, inputs: seq<string>): (a: Answer<int>)
    ensures a.Accepted? ==> && 0 <= a.value < |lines| && lines[a.value].name == a.line && !IsBack(a.line)
                            && forall j {:trigger lines[j].name} :: 0 <= j < a.value ==> lines[j].name != a.line
    ensures |inputs| > 0 && IsBack(inputs[0]) ==> a == Back(inputs[1..])
    ensures a.Back? || a.Accepted? ==> |a.rest| < |inputs| && Suffix(a.rest, inputs)
    ensures a.Exhausted? ==> AllRejected(inputs, IsBack, Locator(lines))
    ensures a.Back? || a.Accepted? ==> FirstAnswer(inputs, IsBack, Locator(lines), |inputs| - |a.rest| - 1)
    ensures a.Back? ==> IsBack(inputs[|inputs| - |a.rest| - 1])
    ensures a.Accepted? ==> a.line == inputs[|inputs| - |a.rest| - 1]
  {
    var a := Ask(inputs, IsBack, Locator(lines));
    if a.Accepted? then LocateSongFindsFirst(lines, a.line); a else a
  }

  /** Accepts a name when some song has it, answering with the first such position. */
  function Locator(lines: seq<Song>): string -> Option<int> {
    line => LocateSong(lines, line)
  }

  /** `update` with line `n` as the line that ended the name prompt: `back` there changes
      nothing, and a name there goes on to the details prompt for the first song of that
      name, on the lines after it. */
  ghost predicate UpdateAt(s: Session, lines: seq<Song>, inputs: seq<string>, n: int, h: Handled) {
    && FirstAnswer(inputs, IsBack, Locator(lines), n)
    && (IsBack(inputs[n]) ==> h == NoChange(s, inputs[n + 1..]))
    && (!IsBack(inputs[n]) ==> && FindLineByName(lines, inputs[n]) >= 0
                               && h == UpdateFound(s, lines, FindLineByName(lines, inputs[n]), inputs[n + 1..]))
  }

  /** `update` once the song file has been read again as `lines`: asks for the name of a
      stored song (or `back`), then for its new details. Nothing is recorded. */
  function UpdateLoaded(s: Session, lines: seq<Song>, inputs: seq<string>): (h: Handled)
    ensures ReadPrefix(h, inputs)
    ensures h.Handled? ==> h.logged.None? && h.states == s.states && h.shown.None?
    ensures h.Handled? && h.result.Some? ==> |h.result.value| == |lines|
    ensures |inputs| > 0 && IsBack(inputs[0]) ==> h == NoChange(s, inputs[1..])
    ensures LocateLoop(lines, inputs).Exhausted? ==> h.Crashed?
    ensures !LocateLoop(lines, inputs).Exhausted? ==>
      UpdateAt(s, lines, inputs, |inputs| - |LocateLoop(lines, inputs).rest| - 1, h)
  {
    match LocateLoop(lines, inputs)
    case Exhausted => Crashed
    case Back(rest) =>
      SuffixIsDrop(rest, inputs);
      assert UpdateAt(s, lines, inputs, |inputs| - |rest| - 1, NoChange(s, rest));
      NoChange(s, rest)
    case Accepted(index, line, rest) =>
      var h := UpdateFound(s, lines, index, rest);
      SuffixContains(rest, inputs);
      SuffixIsDrop(rest, inputs);
      assert UpdateAt(s, lines, inputs, |inputs| - |rest| - 1, h);
      if h.Handled? then SuffixTransitive(h.rest, rest, inputs); h else h
  }

  /** The song an `update` that saved a list replaced, and the line its new details came
      from: the first song with its name, and the only entry that changed. */
  lemma UpdatedSong(s: Session, lines: seq<Song>, inputs: seq<string>) returns (i: int, line: string)
    requires UpdateLoaded(s, lines, inputs).Handled? && UpdateLoaded(s, lines, inputs).result.Some?
    ensures var r := UpdateLoaded(s, lines, inputs).result.value;
      && 0 <= i < |lines| && |r| == |lines|
      && (forall j :: 0 <= j < |lines| && j != i ==> r[j] == lines[j])
      && (forall j {:trigger lines[j].name} :: 0 <= j < i ==> lines[j].name != lines[i].name)
      && line in inputs && MakeSongFromInput(line) == Ok(r[i])
  {
    var a := FoundByName(s, lines, inputs);
    i := a.value;
    var h := UpdateFound(s, lines, i, a.rest);
    var k := |a.rest| - |h.rest| - 1;
    line := a.rest[k];
    assert h.result.value == lines[i := MakeSongFromInput(line).value];
    SuffixContains(a.rest, inputs);
  }

  /** An update that changed the list went through a song found by name. */
  lemma FoundByName(s: Session, lines: seq<Song>, inputs: seq<string>) returns (a: Answer<int>)
    requires UpdateLoaded(s, lines, inputs).Handled? && UpdateLoaded(s, lines, inputs).result.Some?
    ensures a == LocateLoop(lines, inputs) && a.Accepted?
    ensures UpdateLoaded(s, lines, inputs) == UpdateFound(s, lines, a.value, a.rest)
  {
    a := LocateLoop(lines, inputs);
  }

  /** `update`: reads the song file again, then runs the two prompts. A malformed line in
      the file is an IOException, which the dispatcher swallows; a bad play count in it is
      a NumberFormatException nothing catches. */
  function UpdateFlow(s: Session, inputs: seq<string>): (h: Handled)
    ensures ReadPrefix(h, inputs)
    ensures h.Handled? ==> h.logged.None? && h.states == s.states && h.shown.None?
    ensures Load(s.songFile) == Err(FormatError) ==> h == NoChange(s, inputs)
    ensures Load(s.songFile) == Err(RangeError) ==> h.Crashed?
    ensures Load(s.songFile).Ok? ==> h == UpdateLoaded(s, Load(s.songFile).value, inputs)
  {
    match Load(s.songFile)
    case Err(FormatError) => NoChange(s, inputs)
    case Err(RangeError) => Crashed
    case Ok(lines) => UpdateLoaded(s, lines, inputs)
  }

  /** Runs one command. Only `undo` touches the undo stack, the listing commands and `help`
      return `null`, and every command leaves a suffix of the console input unread. */
  function Execute(c: Command, s: Session, inputs: seq<string>): (h: Handled)
    ensures ReadPrefix(h, inputs)
    ensures h.Handled? && (c != Undo || h.result.None?) ==> h.states == s.states
    ensures h.Handled? && c in {AllSongs, PlaysOver, Help, History, Debug} ==> h.result.None?
    ensures h.Handled? && c in {History, Update, Exit, Debug} ==> h.logged.None?
    ensures c == Help ==> h.Handled? && h.logged == Some("help")
    ensures c == History ==> h.Handled? && h.shown == Some(Listing(s.history, false))
  {
    match c
    case AllSongs => ShowAllSongs(s, inputs)
    case PlaysOver => PlaysOverFlow(s, inputs)
    case Add => AddFlow(s, inputs)
    case Remove => RemoveFlow(s, inputs)
    case Undo => UndoChange(s, inputs)
    case Help => ShowHelp(s, inputs)
    case History => ShowHistory(s, inputs)
    case Exit => ExitProgram(s, inputs)
    case Update => UpdateFlow(s, inputs)
    case Debug => ShowCompletionCodes(s, inputs)
  }
}
