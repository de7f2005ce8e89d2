/** `Main`'s command loop. Each pass loads the song file and the history file, reads one
    console line, lower-cases it, runs the command it names, saves a changed song list,
    and appends the completion code to the debug file: 0 for exit, 1 for a command that
    returned `null`, 2 for one whose list was saved. */
module MainLoop {
  import opened Results
  import opened JavaInt
  import opened AsciiCase
  import opened TextFile
  import opened SongRecord
  import opened SongStore
  import opened BoundedLog
  import opened UndoStack
  import opened Commands
  import CommandHandler
  import opened Prompt

  /** The outcome of `takeCommand`: the completion code, the list saved to the song file
      (code 2 only), the history entry the command recorded, the undo stack afterwards,
      what a listing command printed, and the console lines left unread. `Aborted` is an
      exception that ends the program. */
  datatype Turn =
    | Turn(code: int, written: Option<seq<Song>>, logged: Option<string>, states: seq<seq<Song>>,
           shown: Option<Listing>, rest: seq<string>)
    | Aborted

  /** The end of `takeCommand`, once the command has run: `null` is code 1, the exit
      sentinel is code 0, anything else is saved with code 2. The undo snapshot is the
      list as it was before the command; it is pushed when the command left the stack size
      as it was. (`takeCommand` also tests that the returned list is not the snapshot, but it
      compares references, and the snapshot is a fresh copy, so that test always passes.) */
  function Complete(s: Session, h: Handled): (t: Turn)
    ensures t.Aborted? <==> h.Crashed?
    ensures t.Turn? ==> && t.logged == h.logged && t.shown == h.shown && t.rest == h.rest
                        && t.code in {0, 1, 2} && (t.written.Some? <==> t.code == 2)
    ensures t.Turn? ==> (t.code == 1 <==> h.result.None?)
    ensures t.Turn? ==> (t.code == 0 <==> h.result.Some? && IsExitSignal(h.result.value))
    ensures t.Turn? && t.code != 2 ==> t.states == h.states
    ensures t.Turn? && t.code == 2 ==> && t.written == h.result
                                       && (|h.states| == |s.states| ==> t.states == Push(h.states, s.store))
                                       && (|h.states| != |s.states| ==> t.states == h.states)
  {
    match h
    case Crashed => Aborted
    case Handled(result, logged, states, shown, rest) =>
      match result
      case None => Turn(1, None, logged, states, shown, rest)
      case Some(newLines) =>
        if IsExitSignal(newLines) then Turn(0, None, logged, states, shown, rest)
        else
          var pushed := if |states| == |s.states| then Push(states, s.store) else states;
          Turn(2, Some(newLines), logged, pushed, shown, rest)
  }

  /** `takeCommand`: reads one console line, lower-cases it, and dispatches it. Running out
      of console input is an exception. */
  function TakeCommand(s: Session, inputs: seq<string>): (t: Turn)
    ensures |inputs| == 0 ==> t.Aborted?
    ensures t.Turn? ==> |t.rest| < |inputs| && Suffix(t.rest, inputs[1..])
    ensures t.Turn? && t.code == 1 ==> t.states == s.states
  {
    if |inputs| == 0 then Aborted
    else
      var h := CommandHandler.HandleCommand(ToLower(inputs[0]), s, inputs[1..]);
      if h.Handled? then Complete(s, h) else Aborted
  }

  /** The three files and the undo stack, between passes of the loop. */
  datatype Machine = Machine(songText: string, historyText: string, debugText: string, states: seq<seq<Song>>)

  /** One pass of the loop, or `Stopped` when an exception ends the program first. */
  datatype Pass = Pass(code: int, next: Machine, rest: seq<string>) | Stopped

  /** The session a pass runs in, once the song file has loaded. */
  function SessionOf(m: Machine): (s: Session)
    requires Load(ReadAllLines(m.songText)).Ok?
    ensures s.songFile == ReadAllLines(m.songText) && s.history == ReadAllLines(m.historyText)
    ensures Load(s.songFile) == Ok(s.store) && s.states == m.states
  {
    var songFile := ReadAllLines(m.songText);
    Session(Load(songFile).value, songFile, ReadAllLines(m.historyText), m.states)
  }

  /** The writes that end a pass: the song file when a list came back, the history file
      when the command recorded an entry, and the debug file always. */
  function WriteBack(m: Machine, history: seq<string>, t: Turn): (r: Pass)
    requires t.Turn?
    ensures r.Pass? && r.code == t.code && r.rest == t.rest && r.next.states == t.states
    ensures ReadAllLines(r.next.debugText) == UpdateDebug(t.code, ReadAllLines(m.debugText))
    ensures t.written.None? ==> r.next.songText == m.songText
    ensures t.logged.None? ==> r.next.historyText == m.historyText
  {
    var historyText := if t.logged.Some? then JoinLines(UpdateHistory(t.logged.value, history)) else m.historyText;
    var songText := if t.written.Some? then Serialise(t.written.value) else m.songText;
    DebugFileRoundTrip(t.code, ReadAllLines(m.debugText));
    Pass(t.code, Machine(songText, historyText, TerminatedLines(UpdateDebug(t.code, ReadAllLines(m.debugText))), t.states), t.rest)
  }

  /** The layout of the files written at the end of a pass: the history file ends with
      the new entry and no newline after it, and the debug file ends with the code and a
      newline. */
  lemma WriteBackLayout(m: Machine, history: seq<string>, t: Turn)
    requires t.Turn?
    ensures var r := WriteBack(m, history, t);
      && (t.logged.Some? ==> EndsWith(r.next.historyText, t.logged.value))
      && EndsWith(r.next.debugText, IntToString(t.code) + "\n")
  {
    TerminatedLinesEnd(UpdateDebug(t.code, ReadAllLines(m.debugText)));
  }

  /** One pass of the `do … while` loop in `main`: load both files, take a command, then
      write back. An exception at any point ends the program. */
  function Step(m: Machine, inputs: seq<string>): (r: Pass)
    ensures Load(ReadAllLines(m.songText)).Err? ==> r.Stopped?
    ensures |inputs| == 0 ==> r.Stopped?
    ensures r.Pass? ==> r.code in {0, 1, 2} && |r.rest| < |inputs|
  {
    if Load(ReadAllLines(m.songText)).Err? then Stopped
    else
      var s := SessionOf(m);
      var t := TakeCommand(s, inputs);
      if t.Aborted? then Stopped else WriteBack(m, s.history, t)
  }

  /** How the program ends: through the exit command, or through an exception (which
      includes running out of console input). */
  datatype Outcome = Exited(final: Machine) | Halted(final: Machine)

  /** `main`'s loop, run until the exit command or an exception. After an exit the last
      line of the debug file is `0`, and the file holds at most its cutoff of lines. */
  function Run(m: Machine, inputs: seq<string>): (o: Outcome)
    ensures o.Exited? ==>
      var d := ReadAllLines(o.final.debugText);
      0 < |d| <= DebugCutoff && d[|d| - 1] == "0"
    decreases |inputs|
  {
    match Step(m, inputs)
    case Stopped => Halted(m)
    case Pass(code, next, rest) =>
      if code == 0 then ExitLogged(m, inputs); Exited(next)
      else StepConsumesInput(m, inputs); Run(next, rest)
  }

  /** A pass that answers 0 leaves `0` as the last line of a debug file within its cutoff. */
  lemma ExitLogged(m: Machine, inputs: seq<string>)
    requires Step(m, inputs).Pass? && Step(m, inputs).code == 0
    ensures var d := ReadAllLines(Step(m, inputs).next.debugText);
      0 < |d| <= DebugCutoff && d[|d| - 1] == "0"
  {
    StepLogsCode(m, inputs);
    assert IntToString(0) == "0";
  }

  /** Lines without line breaks, as `Scanner.nextLine` and `Files.readAllLines` return. */
  predicate SingleLines(lines: seq<string>) {
    forall j :: 0 <= j < |lines| ==> NoTerminators(lines[j])
  }

  /** Every stored undo state could be saved to the song file and loaded again. */
  predicate StatesEncodable(states: seq<seq<Song>>) {
    forall k :: 0 <= k < |states| ==> AllEncodable(states[k])
  }

  /** What a session built by `Step` satisfies. */
  predicate WellFormedSession(s: Session) {
    AllEncodable(s.store) && StatesEncodable(s.states) && SingleLines(s.songFile)
  }

  /** A song file that loads, and an undo stack of savable lists. */
  predicate WellFormed(m: Machine) {
    Load(ReadAllLines(m.songText)).Ok? && StatesEncodable(m.states)
  }

  /** What is left of console lines is console lines. */
  lemma SuffixLines(inputs: seq<string>, rest: seq<string>)
    requires SingleLines(inputs) && Suffix(rest, inputs)
    ensures SingleLines(rest)
  {
    SuffixIsDrop(rest, inputs);
    assert forall j :: 0 <= j < |rest| ==> rest[j] == inputs[|inputs| - |rest| + j];
  }

  /** Removing one entry keeps a property every entry had. */
  lemma RemovalKeeps<T>(xs: seq<T>, i: nat, r: seq<T>, p: T -> bool)
    requires i < |xs| && r == xs[..i] + xs[i + 1..]
    requires forall k :: 0 <= k < |xs| ==> p(xs[k])
    ensures forall k :: 0 <= k < |r| ==> p(r[k])
  {
    assert forall k :: 0 <= k < |r| ==> r[k] == if k < i then xs[k] else xs[k + 1];
  }

  /** Replacing one entry by one with a property every entry had keeps the property. */
  lemma ReplacementKeeps<T>(xs: seq<T>, ys: seq<T>, i: nat, p: T -> bool)
    requires |xs| == |ys| && i < |ys|
    requires forall k :: 0 <= k < |xs| ==> p(xs[k])
    requires forall k :: 0 <= k < |xs| && k != i ==> ys[k] == xs[k]
    requires p(ys[i])
    ensures forall k :: 0 <= k < |ys| ==> p(ys[k])
  {
  }

  /** Removing a song from a savable list leaves a savable list. */
  lemma RemoveKeepsEncodable(lines: seq<Song>, name: string)
    requires AllEncodable(lines) && RemoveSong(lines, name).Some?
    ensures AllEncodable(RemoveSong(lines, name).value)
  {
    RemoveSongSlices(lines, name);
    RemovalKeeps(lines, FindLineByName(lines, name), RemoveSong(lines, name).value, Encodable);
  }

  /** A history entry holds no line break and is not empty. */
  predicate Recordable(entry: string) {
    NoTerminators(entry) && entry != ""
  }

  /** A fixed command word followed by an argument typed on one line is a history entry. */
  lemma EntryIsRecordable(word: string, argument: string)
    requires Recordable(word) && NoTerminators(argument)
    ensures Recordable(word + argument)
  {
    assert forall i :: 0 <= i < |word + argument| ==>
      (word + argument)[i] == if i < |word| then word[i] else argument[i - |word|];
  }

  /** The fixed words the commands record. */
  lemma EntryWords()
    ensures Recordable("plays_over ") && Recordable("add ") && Recordable("remove ")
    ensures Recordable("all_songs") && Recordable("undo") && Recordable("help")
  {
  }

  /** A line read from console lines is one line. */
  lemma LineOfInputs(inputs: seq<string>, line: string)
    requires SingleLines(inputs) && line in inputs
    ensures NoTerminators(line)
  {
  }

  /** A printed `int` is one line. */
  lemma NumeralIsOneLine(n: int)
    ensures NoTerminators(IntToString(n))
  {
    IntToStringCharacters(n);
  }

  /** Adding a savable song to a savable list leaves a savable list. */
  lemma AppendKeepsEncodable(lines: seq<Song>, song: Song)
    requires AllEncodable(lines) && Encodable(song)
    ensures AllEncodable(lines + [song])
  {
  }

  /** What a command run on a well-formed session leaves: a savable list (unless the
      command may be `exit`), a one-line history entry, a savable undo stack, and console
      lines. */
  predicate WellFormedHandled(h: Handled, mayExit: bool) {
    h.Handled? ==>
      && (!mayExit && h.result.Some? ==> AllEncodable(h.result.value))
      && (h.logged.Some? ==> Recordable(h.logged.value))
      && StatesEncodable(h.states)
      && SingleLines(h.rest)
  }

  /** `plays_over` records a one-line entry and leaves console lines. */
  lemma PlaysOverKeepsWellFormed(s: Session, inputs: seq<string>)
    requires WellFormedSession(s) && SingleLines(inputs)
    ensures WellFormedHandled(PlaysOverFlow(s, inputs), false)
  {
    var h := PlaysOverFlow(s, inputs);
    if h.Handled? {
      SuffixLines(inputs, h.rest);
      if h.logged.Some? {
        var m := PlaysOverMinimum(s, inputs);
        NumeralIsOneLine(m as int);
        EntryWords();
        EntryIsRecordable("plays_over ", IntToString(m as int));
      }
    }
  }

  /** `add` appends a savable song parsed from a console line, and records that line. */
  lemma AddKeepsWellFormed(s: Session, inputs: seq<string>)
    requires WellFormedSession(s) && SingleLines(inputs)
    ensures WellFormedHandled(AddFlow(s, inputs), false)
  {
    var h := AddFlow(s, inputs);
    if h.Handled? {
      SuffixLines(inputs, h.rest);
      if h.result.Some? {
        var line := AddedLine(s, inputs);
        LineOfInputs(inputs, line);
        ParsedSongIsEncodable(line);
        AppendKeepsEncodable(s.store, MakeSongFromInput(line).value);
        EntryWords();
        EntryIsRecordable("add ", line);
      }
    }
  }

  /** `remove` leaves a savable list and records the name it was given. */
  lemma RemoveKeepsWellFormed(s: Session, inputs: seq<string>)
    requires WellFormedSession(s) && SingleLines(inputs)
    ensures WellFormedHandled(RemoveFlow(s, inputs), false)
  {
    var h := RemoveFlow(s, inputs);
    if h.Handled? {
      SuffixLines(inputs, h.rest);
      if h.result.Some? {
        var line := RemovedName(s, inputs);
        LineOfInputs(inputs, line);
        RemoveKeepsEncodable(s.store, line);
        EntryWords();
        EntryIsRecordable("remove ", line);
      }
    }
  }

  /** `undo` hands back a state from a savable stack and leaves the rest of it. */
  lemma UndoKeepsWellFormed(s: Session, inputs: seq<string>)
    requires WellFormedSession(s) && SingleLines(inputs)
    ensures WellFormedHandled(UndoChange(s, inputs), false)
  {
    var h := UndoChange(s, inputs);
    if h.result.Some? {
      assert h.states + [h.result.value] == s.states;
      assert forall k :: 0 <= k < |h.states| ==> h.states[k] == s.states[k];
    }
  }

  /** Replacing one song of a savable list by one typed on a console line keeps it savable. */
  lemma UpdateLoadedKeepsWellFormed(s: Session, lines: seq<Song>, inputs: seq<string>)
    requires WellFormedSession(s) && AllEncodable(lines) && SingleLines(inputs)
    ensures WellFormedHandled(UpdateLoaded(s, lines, inputs), false)
  {
    var h := UpdateLoaded(s, lines, inputs);
    if h.Handled? {
      SuffixLines(inputs, h.rest);
      if h.result.Some? {
        var i, line := UpdatedSong(s, lines, inputs);
        LineOfInputs(inputs, line);
        ParsedSongIsEncodable(line);
        ReplacementKeeps(lines, h.result.value, i, Encodable);
      }
    }
  }

  /** `update` on a session whose song file loads returns a savable list. */
  lemma UpdateKeepsWellFormed(s: Session, inputs: seq<string>)
    requires WellFormedSession(s) && SingleLines(inputs)
    ensures WellFormedHandled(UpdateFlow(s, inputs), false)
  {
    match Load(s.songFile)
    case Err(_) =>
    case Ok(lines) =>
      LoadedSongsAreEncodable(s.songFile);
      UpdateLoadedKeepsWellFormed(s, lines, inputs);
  }

  /** A command run on a well-formed session, reading console lines, returns a savable list
      (unless it is `exit`), records a one-line entry, keeps the undo stack savable, and
      leaves console lines. */
  lemma ExecuteKeepsWellFormed(c: Command, s: Session, inputs: seq<string>)
    requires WellFormedSession(s) && SingleLines(inputs)
    ensures WellFormedHandled(Execute(c, s, inputs), c == Exit)
  {
    match c
    case PlaysOver => PlaysOverKeepsWellFormed(s, inputs);
    case Add => AddKeepsWellFormed(s, inputs);
    case Remove => RemoveKeepsWellFormed(s, inputs);
    case Undo => UndoKeepsWellFormed(s, inputs);
    case Update => UpdateKeepsWellFormed(s, inputs);
    case AllSongs => EntryWords();
    case Help => EntryWords();
    case History =>
    case Exit =>
    case Debug =>
  }

  /** Pushing a savable list keeps the undo stack savable. */
  lemma PushKeepsEncodable(states: seq<seq<Song>>, snapshot: seq<Song>)
    requires StatesEncodable(states) && AllEncodable(snapshot)
    ensures StatesEncodable(Push(states, snapshot))
  {
    var whole := states + [snapshot];
    var r := Push(states, snapshot);
    assert forall k :: 0 <= k < |r| ==> r[k] == whole[|whole| - |r| + k];
  }

  /** A savable list is never mistaken for the exit sentinel. */
  lemma EncodableIsNotExit(lines: seq<Song>)
    requires AllEncodable(lines)
    ensures !IsExitSignal(lines)
  {
    if |lines| == 1 {
      assert Encodable(lines[0]);
    }
  }

  /** The end of `takeCommand` keeps what the command kept: only savable lists are saved,
      the pushed snapshot is savable, and code 0 comes from the exit sentinel alone. */
  lemma CompleteKeepsWellFormed(s: Session, h: Handled, exiting: bool)
    requires WellFormedSession(s) && WellFormedHandled(h, exiting)
    requires exiting && h.Handled? ==> h.result == Some(ExitSentinel)
    ensures var t := Complete(s, h);
      t.Turn? ==>
        && (t.written.Some? ==> AllEncodable(t.written.value))
        && (t.logged.Some? ==> Recordable(t.logged.value))
        && StatesEncodable(t.states)
        && SingleLines(t.rest)
        && (t.code == 0 <==> exiting)
  {
    var t := Complete(s, h);
    if t.Turn? {
      if !exiting && h.result.Some? {
        EncodableIsNotExit(h.result.value);
      }
      if t.code == 2 && |h.states| == |s.states| {
        PushKeepsEncodable(h.states, s.store);
      }
    }
  }

  /** `takeCommand` on a well-formed session: it saves only savable lists, records one-line
      entries, keeps the undo stack savable, and answers 0 exactly for the exit command. */
  lemma TakeCommandKeepsWellFormed(s: Session, inputs: seq<string>)
    requires WellFormedSession(s) && SingleLines(inputs)
    ensures var t := TakeCommand(s, inputs);
      t.Turn? ==>
        && (t.written.Some? ==> AllEncodable(t.written.value))
        && (t.logged.Some? ==> Recordable(t.logged.value))
        && StatesEncodable(t.states)
        && SingleLines(t.rest)
        && (t.code == 0 <==> CommandHandler.Route(ToLower(inputs[0])) == Some(Exit))
  {
    if |inputs| > 0 {
      var input := ToLower(inputs[0]);
      var h := CommandHandler.HandleCommand(input, s, inputs[1..]);
      assert TakeCommand(s, inputs) == Complete(s, h);
      SuffixLines(inputs, inputs[1..]);
      match CommandHandler.Route(input)
      case None =>
        assert h == NoChange(s, inputs[1..]);
        CompleteKeepsWellFormed(s, h, false);
      case Some(c) =>
        assert h == Execute(c, s, inputs[1..]);
        ExecuteKeepsWellFormed(c, s, inputs[1..]);
        CompleteKeepsWellFormed(s, h, c == Exit);
    }
  }

  /** A pass over a well-formed machine leaves a well-formed machine, and code 0 comes
      from the exit command and nothing else. */
  lemma StepKeepsWellFormed(m: Machine, inputs: seq<string>)
    requires WellFormed(m) && SingleLines(inputs)
    ensures var r := Step(m, inputs);
      r.Pass? ==> WellFormed(r.next) && SingleLines(r.rest)
                  && (r.code == 0 <==> CommandHandler.Route(ToLower(inputs[0])) == Some(Exit))
  {
    var s := SessionOf(m);
    var t := TakeCommand(s, inputs);
    if t.Turn? {
      LoadedSongsAreEncodable(s.songFile);
      TakeCommandKeepsWellFormed(s, inputs);
      if t.written.Some? {
        LoadSerialised(t.written.value);
      }
    }
  }

  /** The song and history files written at the end of a pass read back as the saved list
      and as the history with the new entry last. */
  lemma WriteBackReadsBack(m: Machine, history: seq<string>, t: Turn)
    requires t.Turn? && SingleLines(history)
    requires t.written.Some? ==> AllEncodable(t.written.value)
    requires t.logged.Some? ==> Recordable(t.logged.value)
    ensures var r := WriteBack(m, history, t);
      && (t.written.Some? ==> Load(ReadAllLines(r.next.songText)) == Ok(t.written.value))
      && (t.logged.Some? ==> ReadAllLines(r.next.historyText) == UpdateHistory(t.logged.value, history))
  {
    if t.written.Some? {
      LoadSerialised(t.written.value);
    }
    if t.logged.Some? {
      HistoryFileRoundTrip(t.logged.value, history);
    }
  }

  /** After a pass over a well-formed machine, a saved song list loads back as exactly
      that list, and a recorded entry is the last line of the history file, which holds
      at most its cutoff of lines. */
  lemma StepFilesReadBack(m: Machine, inputs: seq<string>)
    requires WellFormed(m) && SingleLines(inputs)
    ensures var r := Step(m, inputs);
      var t := TakeCommand(SessionOf(m), inputs);
      && (r.Pass? && t.written.Some? ==> Load(ReadAllLines(r.next.songText)) == Ok(t.written.value))
      && (r.Pass? && t.logged.Some? ==>
            && ReadAllLines(r.next.historyText) == UpdateHistory(t.logged.value, ReadAllLines(m.historyText))
            && var lines := ReadAllLines(r.next.historyText);
               0 < |lines| <= HistoryCutoff && lines[|lines| - 1] == t.logged.value)
  {
    var s := SessionOf(m);
    var t := TakeCommand(s, inputs);
    if t.Turn? {
      LoadedSongsAreEncodable(s.songFile);
      TakeCommandKeepsWellFormed(s, inputs);
      StepOfTurn(m, inputs);
      WriteBackReadsBack(m, s.history, t);
    }
  }

  /** The machine after a pass that only appended `code` to the debug file. */
  function Quiet(m: Machine, code: int): Machine {
    m.(debugText := TerminatedLines(UpdateDebug(code, ReadAllLines(m.debugText))))
  }

  /** A routed input runs its command on the lines after it. */
  lemma TakeRouted(s: Session, inputs: seq<string>, c: Command)
    requires |inputs| > 0 && CommandHandler.Route(ToLower(inputs[0])) == Some(c)
    ensures TakeCommand(s, inputs) == Complete(s, Execute(c, s, inputs[1..]))
  {
  }

  /** A pass that takes a command without an exception ends with its writes. */
  lemma StepOfTurn(m: Machine, inputs: seq<string>)
    requires Load(ReadAllLines(m.songText)).Ok?
    requires TakeCommand(SessionOf(m), inputs).Turn?
    ensures Step(m, inputs) == WriteBack(m, SessionOf(m).history, TakeCommand(SessionOf(m), inputs))
  {
  }

  /** A pass that saves nothing leaves the song file as it was, and one that answers 1
      leaves the undo stack as it was too. */
  lemma QuietPassKeepsSongs(m: Machine, inputs: seq<string>)
    ensures var r := Step(m, inputs);
      && (r.Pass? && r.code != 2 ==> r.next.songText == m.songText)
      && (r.Pass? && r.code == 1 ==> r.next.states == m.states)
  {
    if Load(ReadAllLines(m.songText)).Ok? && TakeCommand(SessionOf(m), inputs).Turn? {
      var s := SessionOf(m);
      StepOfTurn(m, inputs);
      var h := CommandHandler.HandleCommand(ToLower(inputs[0]), s, inputs[1..]);
      assert TakeCommand(s, inputs) == Complete(s, h);
    }
  }

  /** Every pass reads at least the command line and leaves the rest of the console input. */
  lemma StepConsumesInput(m: Machine, inputs: seq<string>)
    ensures var r := Step(m, inputs);
      r.Pass? ==> |r.rest| < |inputs| && Suffix(r.rest, inputs[1..])
  {
    if Load(ReadAllLines(m.songText)).Ok? && TakeCommand(SessionOf(m), inputs).Turn? {
      StepOfTurn(m, inputs);
    }
  }

  /** Every pass appends its completion code to the debug file, which reads back as the
      trimmed log. */
  lemma StepLogsCode(m: Machine, inputs: seq<string>)
    ensures var r := Step(m, inputs);
      r.Pass? ==> ReadAllLines(r.next.debugText) == UpdateDebug(r.code, ReadAllLines(m.debugText))
  {
    if Load(ReadAllLines(m.songText)).Ok? && TakeCommand(SessionOf(m), inputs).Turn? {
      StepOfTurn(m, inputs);
    }
  }

  /** An input that names no command is reported and changes nothing but the debug file. */
  lemma UnrecognisedChangesNothing(m: Machine, inputs: seq<string>)
    requires Load(ReadAllLines(m.songText)).Ok? && |inputs| > 0
    requires CommandHandler.Route(ToLower(inputs[0])).None?
    ensures Step(m, inputs) == Pass(1, Quiet(m, 1), inputs[1..])
  {
    var s := SessionOf(m);
    assert TakeCommand(s, inputs) == Complete(s, NoChange(s, inputs[1..]));
    StepOfTurn(m, inputs);
  }

  /** The commands that prompt for more input, answered at once with their `back`
      sentinel: exactly `back` for `plays_over`, `back` in any case for the others. */
  predicate BackedOut(inputs: seq<string>) {
    && |inputs| >= 2
    && var c := CommandHandler.Route(ToLower(inputs[0]));
       || (c == Some(PlaysOver) && inputs[1] == "back")
       || ((c == Some(Add) || c == Some(Remove) || c == Some(Update)) && IsBack(inputs[1]))
  }

  /** A prompt answered at once with its `back` sentinel returns `null` and reads nothing
      more. */
  lemma BackedOutCommand(s: Session, c: Command, inputs: seq<string>)
    requires Load(s.songFile).Ok? && |inputs| > 0
    requires (c == PlaysOver && inputs[0] == "back") || ((c == Add || c == Remove || c == Update) && IsBack(inputs[0]))
    ensures Execute(c, s, inputs) == NoChange(s, inputs[1..])
  {
  }

  /** Backing out of a prompt changes nothing but the debug file, and reads two lines. */
  lemma BackChangesNothing(m: Machine, inputs: seq<string>)
    requires Load(ReadAllLines(m.songText)).Ok? && BackedOut(inputs)
    ensures Step(m, inputs) == Pass(1, Quiet(m, 1), inputs[2..])
  {
    var s := SessionOf(m);
    var c := CommandHandler.Route(ToLower(inputs[0])).value;
    var rest := inputs[1..];
    assert rest[1..] == inputs[2..];
    TakeRouted(s, inputs, c);
    BackedOutCommand(s, c, rest);
    StepOfTurn(m, inputs);
  }

  /** `undo` at the level of one command: with a stored state it hands that state back,
      records `undo` and pops the stack without pushing; with none it changes nothing. */
  lemma TakeUndo(s: Session, inputs: seq<string>)
    requires WellFormedSession(s) && |inputs| > 0
    requires CommandHandler.Route(ToLower(inputs[0])) == Some(Undo)
    ensures |s.states| == 0 ==> TakeCommand(s, inputs) == Turn(1, None, None, s.states, None, inputs[1..])
    ensures |s.states| > 0 ==>
      TakeCommand(s, inputs)
        == Turn(2, Some(s.states[|s.states| - 1]), Some("undo"), s.states[..|s.states| - 1], None, inputs[1..])
  {
    TakeRouted(s, inputs, Undo);
    if |s.states| > 0 {
      EncodableIsNotExit(s.states[|s.states| - 1]);
    }
  }

  /** `undo` with a stored state saves that state, records `undo`, and pops it without
      pushing anything; with none it changes nothing but the debug file. */
  lemma UndoRestores(m: Machine, inputs: seq<string>)
    requires WellFormed(m) && |inputs| > 0
    requires CommandHandler.Route(ToLower(inputs[0])) == Some(Undo)
    ensures |m.states| == 0 ==> Step(m, inputs) == Pass(1, Quiet(m, 1), inputs[1..])
    ensures |m.states| > 0 ==>
      var r := Step(m, inputs);
      && r.Pass? && r.code == 2 && r.rest == inputs[1..]
      && r.next.states == m.states[..|m.states| - 1]
      && Load(ReadAllLines(r.next.songText)) == Ok(m.states[|m.states| - 1])
  {
    var s := SessionOf(m);
    LoadedSongsAreEncodable(s.songFile);
    TakeUndo(s, inputs);
    StepOfTurn(m, inputs);
    if |m.states| > 0 {
      LoadSerialised(m.states[|m.states| - 1]);
    }
  }

  /** A command other than `undo` that returns a list pushes the list it started from. */
  lemma CommitPushes(s: Session, inputs: seq<string>)
    requires |inputs| > 0 && CommandHandler.Route(ToLower(inputs[0])) != Some(Undo)
    requires TakeCommand(s, inputs).Turn? && TakeCommand(s, inputs).code == 2
    ensures TakeCommand(s, inputs).states == Push(s.states, s.store)
  {
    var c := CommandHandler.Route(ToLower(inputs[0]));
    assert c.Some?;
    TakeRouted(s, inputs, c.value);
  }

  /** A change saved by any command but `undo`, followed by `undo`, puts the song list
      back as it was before the change. */
  lemma CommitThenUndo(m: Machine, inputs: seq<string>)
    requires WellFormed(m) && SingleLines(inputs)
    requires |inputs| > 0 && CommandHandler.Route(ToLower(inputs[0])) != Some(Undo)
    requires Step(m, inputs).Pass? && Step(m, inputs).code == 2
    requires var rest := Step(m, inputs).rest;
      |rest| > 0 && CommandHandler.Route(ToLower(rest[0])) == Some(Undo)
    ensures var first := Step(m, inputs);
      var second := Step(first.next, first.rest);
      && second.Pass? && second.code == 2
      && Load(ReadAllLines(second.next.songText)) == Load(ReadAllLines(m.songText))
      && (|m.states| < UndoCutoff ==> second.next.states == m.states)
  {
    var s := SessionOf(m);
    var first := Step(m, inputs);
    CommitPushes(s, inputs);
    StepOfTurn(m, inputs);
    StepKeepsWellFormed(m, inputs);
    PopAfterPush(m.states, s.store);
    UndoRestores(first.next, first.rest);
  }
}
