# Song list: a verified model of the command loop

SongApp is a console program that keeps a list of songs (`name, artist, plays`) in a
text file. Each pass of its main loop does the following:

1. It loads the song file and the command-history file.
2. It reads one command word, lower-cases it, and dispatches it through a ten-entry table.
   The commands are `all_songs`, `plays_over`, `add`, `remove`, `undo`, `help`, `history`,
   `exit`, `update` and `debug`.
3. It saves the list the command returned, unless the command returned nothing or the
   sentinel list that `exit` returns.
4. It appends a completion code to a debug file: 0 for exit, 1 for no change, 2 for a
   saved change.

The commands that prompt for more input re-ask until a line is acceptable or is the
`back` sentinel. The history keeps the last 10 entries and the debug file the last 100.
An in-memory undo stack keeps the last 10 lists a change started from.

This project models that engine as pure Dafny functions over immutable values:

- A `Song` is a datatype with a 32-bit play count.
- The files are strings, read with the line rules of `Files.readAllLines`.
- The console is the sequence of lines still to be typed.
- An exception is an explicit outcome: a `Result` error, `Crashed`, `Aborted` or `Stopped`.

The modules follow the program's structure:

- `FieldSplit` and `JavaInt`: the Java library behaviour the codec relies on,
  `String.split(", ")` and `Integer.parseInt`/`toString`.
- `TextFile`: the file layouts and how they read back.
- `SongRecord`: the line codec.
- `SongStore`: the list operations.
- `BoundedLog`: the history and debug logs.
- `UndoStack`: the undo stack.
- `Prompt`: the re-prompting loop.
- `Commands`: the command bodies.
- `CommandHandler` and `SongCommandHandler`: the two dispatch tables.
- `MainLoop`: `takeCommand` and the loop.

Where the code and its own comments disagree, the model follows the code:

- The undo snapshot is pushed whenever the command left the stack size unchanged. The
  code also tests `newLines != prevState`. That test compares references, and the
  snapshot is always a fresh copy, so it never fails. An `update` that rewrites a song
  with identical details therefore still pushes a snapshot.

Parsing accepts lines that formatting does not rebuild:

- Formatting a parsed line gives the line back only for canonical lines.
  `x, y, 5, , ` parses, because `split` drops trailing empty fields, but it formats as
  `x, y, 5`. Numerals such as `+5` or `05` parse too, and do not format back the same.

## Model

| member | source | states |
|---|---|---|
| JavaInt.ParseIntMeaning | SongApp/src/Main.java:410 | `Integer.parseInt` succeeds exactly on an optional `-` or `+` followed by at least one digit, when the value fits in 32 bits, and returns that value |
| JavaInt.ScanDigitsReadsNumeral | SongApp/src/Main.java:410 | the digit scan succeeds exactly on a non-empty run of digits, and reads its decimal value |
| JavaInt.ParseIntToString | SongApp/src/Main.java:410 | `Integer.parseInt` reads back every `int` that `Integer.toString` printed |
| JavaInt.NatToString | SongApp/src/Main.java:243 | the printed digits are a numeral whose value is the number, with no leading zero |
| JavaInt.IntToString | SongApp/src/Main.java:243 | an `int` prints as its digits, after a `-` exactly when it is negative, and the digits' value is its magnitude |
| FieldSplit.IndexOfDelimiter | SongApp/src/Main.java:407 | the split scan returns -1 or an in-range index where `, ` starts |
| FieldSplit.IndexOfDelimiterIsFirst | SongApp/src/Main.java:407 | the index found is the first `, `, and -1 exactly when the line holds none |
| FieldSplit.DropTrailingEmpty | SongApp/src/Main.java:407 | dropping trailing empty strings never lengthens the list |
| FieldSplit.DropTrailingEmptyKeepsPrefix | SongApp/src/Main.java:407 | split drops exactly the empty strings at the end: what is kept is a prefix in order and ends on a non-empty string |
| FieldSplit.JoinSplitPieces | SongApp/src/Main.java:407 | cutting at every `, ` and re-joining gives back the line |
| FieldSplit.SplitFieldsAreClean | SongApp/src/Main.java:407 | no field returned by split contains the delimiter, and every field keeps any character property of the line |
| FieldSplit.SplitRejoins | SongApp/src/Main.java:407 | split returns a line without `, ` as its only field; otherwise the last field is non-empty, and joined back they give the line less its trailing delimiters (a line of delimiters alone splits into no fields) |
| FieldSplit.SplitOfJoin | SongApp/src/Main.java:407 | split inverts joining two or more delimiter-free fields whose last field is non-empty |
| TextFile.ReadAllLines | SongApp/src/Main.java:196 | no line that `readAllLines` returns contains a line terminator |
| TextFile.JoinLines | SongApp/src/Main.java:242-246 | no lines give the empty text, and otherwise the text ends with the last line itself, with no newline after it |
| TextFile.TerminatedLines | SongApp/src/Main.java:288-294 | every line is followed by `\n`: the text is the joined lines plus one final newline |
| TextFile.TerminatedLinesEnd | SongApp/src/Main.java:288-294 | the debug text ends with its last line and a newline |
| TextFile.ReadJoinedLines | SongApp/src/Main.java:242-246 | lines joined by `\n` with no final newline read back as the same lines, if the last one is non-empty |
| TextFile.ReadTerminatedLines | SongApp/src/Main.java:288-294 | lines each followed by `\n` read back as the same lines, empty ones included |
| SongRecord.FromLine | SongApp/src/Song.java:11-20 | `Song(String)` fails with IOException exactly when split gives other than 3 fields, and otherwise with NumberFormatException exactly when the third field is not an `int`; a song's name and artist are the first two fields, its plays the third field's value, and neither name nor artist holds the delimiter |
| SongRecord.MakeSongFromInput | SongApp/src/Main.java:405-415 | IOException exactly when split gives other than 3 fields; otherwise NumberFormatException exactly when the third field is not an `int` or is negative; a song's name, artist and plays are the three fields, with plays >= 0 and no delimiter in name or artist |
| SongRecord.MakeSongRefinesFromLine | SongApp/src/Main.java:411 | `makeSongFromInput` accepts exactly what `Song(String)` accepts with a non-negative count, gives the same song, and fails with the same error where `Song(String)` fails |
| SongRecord.FormatLineLayout | SongApp/src/Main.java:243 | a saved line is `name + ", " + artist + ", " + plays` |
| SongRecord.FromLineOfFormat | SongApp/src/Song.java:11-20 | `Song(String)` reads back any saved song with delimiter-free name and artist, negative counts included |
| SongRecord.MakeSongOfFormat | SongApp/src/Main.java:405-413 | `makeSongFromInput` reads back a saved song with a non-negative count and delimiter-free name and artist |
| SongRecord.ParsedSongIsEncodable | SongApp/src/Main.java:405-413 | a song parsed from a console line can be saved and read back |
| SongRecord.FormatLineIsOneLine | SongApp/src/Main.java:243-244 | a saved song is one non-empty line of the file |
| SongRecord.FormatOfParsedLine | SongApp/src/Main.java:407-413 | formatting a parsed line rebuilds it when it had exactly three pieces and a canonical count |
| SongRecord.TrailingEmptyFieldsDropped | SongApp/src/Main.java:407-409 | `x, y, 5, , ` is accepted as `x, y, 5` and does not format back as itself |
| SongStore.FindLineByName | SongApp/src/Main.java:136-142 | -1 or an in-range index whose song has exactly the input name |
| SongStore.FindLineByNameIsFirst | SongApp/src/Main.java:136-142 | the index found is the least with the name, and -1 exactly when no song has it |
| SongStore.RemoveSong | SongApp/src/Main.java:391-402 | `null` exactly when no name matches; otherwise a list one song shorter |
| SongStore.RemoveSongKeepsOthers | SongApp/src/Main.java:391-402 | a removal keeps every song before the first match in place and shifts every song after it down by one |
| SongStore.RemoveSongSlices | SongApp/src/Main.java:391-402 | the list a removal leaves is the songs before the first match followed by the songs after it |
| SongStore.RemoveThenAppendKeepsSongs | SongApp/src/Main.java:391-402 | removal takes out exactly one song: adding it back gives the same multiset |
| SongStore.SongsOver | SongApp/src/Main.java:226-232 | a song is selected exactly when it is in the list with plays strictly over the minimum; no song is selected more often than it occurs |
| SongStore.SongsOverAppend | SongApp/src/Main.java:226-232 | the selection keeps list order: filtering a concatenation concatenates the filtered parts |
| SongStore.Names | SongApp/src/Main.java:215-217 | the names of the songs, position by position |
| SongStore.PrintSongs | SongApp/src/Main.java:208-219 | the "none stored" notice exactly for an empty list, and otherwise every name in order |
| SongStore.PrintSongsOverNum | SongApp/src/Main.java:224-235 | the "no songs" notice exactly when no song is over the minimum; every song over it is named, and only those |
| SongStore.ParseAll | SongApp/src/Main.java:194-203 | succeeds exactly when every line parses, giving the songs line by line; otherwise fails with the error of the first bad line |
| SongStore.Load | SongApp/src/Main.java:194-203 | `getSongLines` is all or nothing: every line parsed in order, or the first line's error |
| SongStore.FormatLines | SongApp/src/Main.java:242-246 | one saved line per song, in order |
| SongStore.Serialise | SongApp/src/Main.java:238-248 | no songs give the empty file; for songs that can be saved the text reads back as one saved line per song, in order, and ends with the last song's line with no return character after it |
| SongStore.LoadSerialised | SongApp/src/Main.java:238-248 | loading what `updateSongFile` wrote gives back exactly the saved list |
| SongStore.LoadedSongsAreEncodable | SongApp/src/Main.java:194-203 | every song loaded from the file can be saved and loaded again |
| BoundedLog.Evict | SongApp/src/Main.java:259 | the eviction loop keeps the last `min(n, cutoff)` entries in order |
| BoundedLog.UpdateHistory | SongApp/src/Main.java:253-259 | the history becomes the last `min(10, n + 1)` entries of history + command, and the command is last |
| BoundedLog.UpdateDebug | SongApp/src/Main.java:277-285 | the debug log becomes the last `min(100, n + 1)` entries of log + code, and the code is last |
| BoundedLog.HistoryFileRoundTrip | SongApp/src/Main.java:263-271 | the history file written reads back as the trimmed history |
| BoundedLog.DebugFileRoundTrip | SongApp/src/Main.java:288-294 | the debug file written reads back as the trimmed log |
| UndoStack.Push | SongApp/src/Main.java:299-303 | the stack becomes the last `min(10, n + 1)` entries of stack + snapshot |
| UndoStack.Pop | SongApp/src/Main.java:427-436 | `null` exactly on an empty stack; otherwise the top state, and the stack under it unchanged |
| UndoStack.PopAfterPush | SongApp/src/Main.java:299-303 | last in, first out: a pop right after a push returns the snapshot and the old stack, less its oldest entry if the push evicted |
| UndoStack.PushAllWithinCutoff | SongApp/src/Main.java:299-303 | up to the cutoff, pushes stack the snapshots on top and evict nothing |
| UndoStack.PopAllAfterPushAll | SongApp/src/Main.java:427-436 | within the cutoff, n pops after n pushes return the snapshots newest first and restore the stack |
| Prompt.Ask | SongApp/src/Main.java:334-353 | the prompt loop ends on the first line that is `back` or acceptable: every line before it was neither, and running out of input means no line was either; the answer reports that line, its value, and the lines after it |
| Commands.PlaysOverFlow | SongApp/src/Main.java:306-328 | the prompt stops at the first line that is exactly `back` or an `int`, and running out of input first is an exception; an entry is recorded exactly when that line is not `back`, and `back` first returns with no change; the list is never returned and the undo stack is kept |
| Commands.PlaysOverMinimum | SongApp/src/Main.java:306-328 | a `plays_over` that recorded an entry read its minimum from the line that ended the prompt, listed the songs over that minimum, and recorded `plays_over <minimum>` |
| Commands.ShowAllSongs | SongApp/src/Main.java:208-219 | every stored name is listed, or the notice exactly when none is stored; `all_songs` is recorded exactly when the list is non-empty; nothing is returned or read |
| Commands.ParseSong | SongApp/src/Main.java:157-167 | a line is accepted exactly when `makeSongFromInput` throws nothing, with the song it made |
| Commands.AddFlow | SongApp/src/Main.java:331-359 | the prompt stops at the first line that is `back` in any case or parses as a song, and running out of input first is an exception; `back` returns `null`; a song line returns the list with that line's song appended and records `add <line>` |
| Commands.AddedLine | SongApp/src/Main.java:331-359 | an `add` that returned a list took its new last song from a console line other than `back`, and recorded that line |
| Commands.RemoveFlow | SongApp/src/Main.java:365-384 | the prompt stops at the first line that is `back` in any case or names a stored song, and running out of input first is an exception; `back` returns `null`; a name returns `removeSong` of that line and records `remove <line>` |
| Commands.RemovedName | SongApp/src/Main.java:365-384 | a `remove` that returned a list removed a song named on a console line other than `back`, and recorded that line |
| Commands.UndoChange | SongApp/src/Main.java:427-436 | an empty stack changes nothing; otherwise the top state is returned and popped, and `undo` is recorded |
| Commands.LocateSong | SongApp/src/Main.java:128-130 | a found index is in range and its song has the typed name |
| Commands.LocateSongFindsFirst | SongApp/src/Main.java:128-130 | no index exactly when no stored song has the typed name; otherwise no earlier song has it |
| Commands.LocateLoop | SongApp/src/Main.java:121-130 | the name prompt stops at the first line that is `back` or names a stored song, and running out of input means no line was either; a name answers the first index with that name |
| Commands.UpdateInputLoop | SongApp/src/Main.java:145-172 | the details prompt ends on the line that is `back` or parses as a song; `back` answers `null`; a song line replaces the song at the index with that line's song and changes nothing else |
| Commands.UpdateFound | SongApp/src/Main.java:131-132 | after a song is found, `back` returns `null` and a song line replaces the found song with that line's song; nothing is recorded |
| Commands.UpdateFoundAnswersFirst | SongApp/src/Main.java:145-172 | the details prompt stops at the first line that is `back` or parses as a song, and running out of input first is an exception |
| Commands.UpdateLoaded | SongApp/src/Main.java:116-133 | the name prompt decides: running out of input is an exception, `back` returns `null`, and a name runs the details prompt on the lines after it for the first song with that name; nothing is recorded |
| Commands.UpdatedSong | SongApp/src/Main.java:116-133 | an `update` that returned a list changed only the first song with some stored name, to the song of a console line |
| Commands.UpdateFlow | SongApp/src/CommandHandler.java:49 | a malformed song file is a swallowed IOException (`null`), a bad count in it an uncaught exception, and otherwise the two prompts run on the reloaded list |
| Commands.ShowHelp | SongApp/src/Main.java:175-184 | `help` records `help`, returns `null`, reads no console line and keeps the undo stack |
| Commands.ShowHistory | SongApp/src/CommandHandler.java:47 | `history` shows the history lines as they are, records nothing, returns `null` and reads no console line |
| Commands.Execute | SongApp/src/CommandHandler.java:40-51 | only `undo` changes the stack; `all_songs`, `plays_over`, `help`, `history`, `debug` return `null`; `history`, `update`, `exit`, `debug` record nothing; `help` records `help`, and `history` shows the history lines |
| CommandHandler.TokenIndex | SongApp/src/CommandHandler.java:55-57 | the first position whose token matches, and no earlier one does |
| CommandHandler.Route | SongApp/src/CommandHandler.java:54-62 | no command exactly when the input equals no accepted word ignoring case |
| CommandHandler.TableIsOneToOne | SongApp/src/CommandHandler.java:17-51 | ten distinct lower-case words paired with ten distinct commands, covering every command |
| CommandHandler.RouteFindsToken | SongApp/src/CommandHandler.java:55-56 | the command at position i is chosen exactly when the input equals word i ignoring case |
| CommandHandler.HandleCommand | SongApp/src/CommandHandler.java:54-62 | runs the command whose word matches ignoring case, on the remaining input; an unrecognised input returns `null` and changes nothing |
| AsciiCase.ToLowerMatchesIgnoringCase | SongApp/src/SongCommandHandler.java:34-37 | against a lower-case token, lower-casing then comparing exactly accepts the same inputs as `equalsIgnoreCase` |
| SongCommandHandler.Route | SongApp/src/SongCommandHandler.java:33-42 | no action exactly when the lower-cased input equals none of the eight words |
| SongCommandHandler.HandleCommand | SongApp/src/SongCommandHandler.java:33-42 | unrecognised input returns `null` and changes nothing; the process ends exactly for `exit`; every other recognised word runs its shared command on the remaining input |
| SongCommandHandler.SharedWords | SongApp/src/SongCommandHandler.java:6 | the eight legacy words are the first eight current words, all lower case |
| SongCommandHandler.SharedMethods | SongApp/src/SongCommandHandler.java:22-31 | the legacy actions match the current commands position by position, and `update`/`debug` have no legacy entry |
| SongCommandHandler.LegacyAgreesWithCurrent | SongApp/src/SongCommandHandler.java:33-42 | the legacy table picks what the current one picks, except that `update`/`debug` are unrecognised and `exit` ends the process |
| MainLoop.Complete | SongApp/src/Main.java:100-108 | code 1 exactly for `null`, 0 exactly for the exit sentinel, 2 with a save otherwise; the snapshot is pushed only on code 2 when the stack size is unchanged |
| MainLoop.TakeCommand | SongApp/src/Main.java:85-109 | no input is an exception; a command reads at least its own line; code 1 leaves the undo stack as it was |
| MainLoop.SessionOf | SongApp/src/Main.java:66-67 | the session holds the lines read from the song and history files, the songs loaded from them, and the undo stack |
| MainLoop.Step | SongApp/src/Main.java:64-78 | a song file that does not load, or running out of input, ends the loop with an exception; a completed pass answers 0, 1 or 2 and reads at least one line |
| MainLoop.WriteBack | SongApp/src/Main.java:75-76 | the debug file always gains the code; the song file changes only on a save and the history file only on an entry |
| MainLoop.Run | SongApp/src/Main.java:64-78 | after the exit command the debug file is non-empty, within its cutoff, and ends with `0` |
| MainLoop.StepConsumesInput | SongApp/src/Main.java:91 | every pass reads at least the command line, so the loop ends |
| MainLoop.StepLogsCode | SongApp/src/Main.java:76 | every pass's debug file reads back as the old log with the code appended and trimmed |
| MainLoop.QuietPassKeepsSongs | SongApp/src/Main.java:100-107 | a pass that does not answer 2 leaves the song file as it was; one answering 1 also leaves the undo stack |
| MainLoop.EncodableIsNotExit | SongApp/src/Main.java:101 | a savable list is never mistaken for the exit sentinel |
| MainLoop.ExecuteKeepsWellFormed | SongApp/src/CommandHandler.java:40-51 | on a well-formed session every command returns a savable list (bar `exit`), records a one-line entry, and keeps the stack savable |
| MainLoop.CompleteKeepsWellFormed | SongApp/src/Main.java:100-108 | the end of `takeCommand` saves only savable lists, pushes a savable snapshot, and answers 0 exactly for the exit command |
| MainLoop.TakeCommandKeepsWellFormed | SongApp/src/Main.java:85-109 | `takeCommand` saves only savable lists, records one-line entries, keeps the stack savable, and answers 0 exactly for `exit` |
| MainLoop.StepKeepsWellFormed | SongApp/src/Main.java:64-78 | a pass over a loadable song file leaves a loadable song file and answers 0 exactly for `exit` |
| MainLoop.WriteBackLayout | SongApp/src/Main.java:267-270 | the history file ends with the new entry and no newline after it; the debug file ends with the code followed by a newline |
| MainLoop.WriteBackReadsBack | SongApp/src/Main.java:107 | a saved list loads back as itself, and a recorded entry reads back as the updated history |
| MainLoop.StepFilesReadBack | SongApp/src/Main.java:75 | after a pass, the saved list loads back exactly, and the history file ends with the entry and holds at most 10 lines |
| MainLoop.TakeRouted | SongApp/src/Main.java:91-98 | `takeCommand` runs the routed command on the lines after the command line |
| MainLoop.StepOfTurn | SongApp/src/Main.java:75-76 | a pass without an exception ends with its writes |
| MainLoop.UnrecognisedChangesNothing | SongApp/src/CommandHandler.java:59-61 | an unrecognised command answers 1 and changes nothing but the debug file |
| MainLoop.BackedOutCommand | SongApp/src/Main.java:306-384 | a prompt answered at once with its `back` sentinel returns `null` and reads nothing more |
| MainLoop.BackChangesNothing | SongApp/src/Main.java:100 | backing out of a prompt answers 1 and changes nothing but the debug file |
| MainLoop.TakeUndo | SongApp/src/Main.java:94-104 | `undo` with a stored state saves it, records `undo` and pops without pushing; with none it answers 1 |
| MainLoop.UndoRestores | SongApp/src/Main.java:427-436 | over whole passes, `undo` saves the top state so that the song file loads as it, and pops the stack |
| MainLoop.CommitPushes | SongApp/src/Main.java:104 | a saved change by any command but `undo` pushes the list it started from |
| MainLoop.CommitThenUndo | SongApp/src/Main.java:94-107 | a saved change followed by `undo` puts the song file back as it was, and below the cutoff the stack too |

## Left out

- Console text: prompts, notices, the help text and error messages are not modelled.
  Listings are modelled as the names they print.
- File creation, `FileWriter`, character sets, and an IOException from reading a file.
  Files are strings, and a read always succeeds.
- The `try`/`catch` around the history write. A failed write is only printed, so the
  model always writes.
- The shutdown hook and the process exit of the older dispatcher. These are process
  control: the model has only an abstract `ProcessExit` outcome.
- `Main.exit` and `printCompletionCodes`: `Main.java` as it stands defines neither,
  though `CommandHandler`'s table refers to both (the older dispatcher calls
  `System.exit(0)` itself). `exit` is modelled as returning one song with play count -1, the list that
  `takeCommand` tests for. `debug` changes nothing.
- `listAssignWithoutReference`: the model's lists are immutable values, so a copy is the
  value itself. The snapshot `Complete` pushes is the session's list.
- The constructor-arity mismatch between `Main` and `CommandHandler`, and the
  no-argument `Main.undo()` call in the older dispatcher, are not reconciled. Likewise
  `Song.java` defines only `Song(String)`, while `Main` calls a three-argument
  `new Song(name, artist, plays)`; `MakeSongFromInput` assumes that constructor just
  stores its three fields. Both
  dispatchers call the same modelled commands.
- JavaInt.ParseIntMeaning: `ParseInt` accepts only ASCII digits, because Java's `Character.digit` also
  accepts other Unicode decimal digits.
- AsciiCase.ToLower: folds only ASCII letters, because Java's `toLowerCase` and
  `equalsIgnoreCase` use full Unicode case mapping.
- MainLoop.Run: states nothing about a run that ends in an exception. Such a run keeps
  the machine of its last completed pass.
- SongStore.PrintSongsOverNum: states which names are printed, not their order. The
  order is stated of the selection it prints: `SongsOver` keeps list order, by
  `SongsOverAppend`.
