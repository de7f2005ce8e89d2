/** `SongCommandHandler`: the older dispatcher. It lower-cases the input and compares it
    exactly with eight words; it has no `update` or `debug`, and its `exit` ends the process
    at once instead of handing a list back. */
module SongCommandHandler {
  import opened Results
  import opened AsciiCase
  import opened Commands
  import CommandHandler

  /** What a legacy table entry does: run one of the shared commands, or `System.exit(0)`. */
  datatype Action = Run(command: Command) | SystemExit

  /** The accepted command words, in table order. */
  const AcceptedInputs: seq<string> :=
    ["all_songs", "plays_over", "add", "remove", "undo", "help", "history", "exit"]

  /** The action at each position of the table. */
  const Methods: seq<Action> :=
    [Run(AllSongs), Run(PlaysOver), Run(Add), Run(Remove), Run(Undo), Run(Help), Run(History), SystemExit]

  /** The action an input selects, if any: the first word equal to the lower-cased input. */
  function Route(input: string): (r: Option<Action>)
    ensures r.None? <==> forall j :: 0 <= j < |AcceptedInputs| ==> ToLower(input) != AcceptedInputs[j]
  {
    var i := CommandHandler.TokenIndex(ToLower(input), AcceptedInputs, (a, b) => a == b);
    if i < |Methods| then Some(Methods[i]) else None
  }

  /** The outcome of one legacy dispatch: a command ran, or the process ended. */
  datatype Outcome = Ran(handled: Handled) | ProcessExit

  /** `handleCommand`: runs the selected action; any other input changes nothing. */
  function HandleCommand(input: string, s: Session, inputs: seq<string>): (o: Outcome)
    ensures Route(input).None? ==> o == Ran(NoChange(s, inputs))
    ensures Route(input) == Some(SystemExit) <==> o.ProcessExit?
    ensures Route(input).Some? && Route(input).value.Run? ==>
      o == Ran(Execute(Route(input).value.command, s, inputs))
    ensures o.Ran? ==> ReadPrefix(o.handled, inputs)
  {
    match Route(input)
    case None => Ran(NoChange(s, inputs))
    case Some(SystemExit) => ProcessExit
    case Some(Run(c)) => Ran(Execute(c, s, inputs))
  }

  /** What the legacy table makes of the current table's choice. */
  function Legacy(c: Option<Command>): Option<Action> {
    match c
    case None => None
    case Some(Exit) => Some(SystemExit)
    case Some(Update) => None
    case Some(Debug) => None
    case Some(c) => Some(Run(c))
  }

  /** Every legacy word is the current word at the same position, in lower case. */
  lemma SharedWords()
    ensures forall j :: 0 <= j < |AcceptedInputs| ==>
      AcceptedInputs[j] == CommandHandler.AcceptedInputs[j] && IsLowerCase(AcceptedInputs[j])
  {
    CommandHandler.TableIsOneToOne();
  }

  /** Searching a table that agrees with a prefix of another table finds the same position,
      or the end of the shorter table when the match lies beyond it. */
  lemma FirstMatchOfPrefix(x: string, ts: seq<string>, m: (string, string) -> bool,
                           y: string, us: seq<string>, n: (string, string) -> bool)
    requires |ts| <= |us|
    requires forall j :: 0 <= j < |ts| ==> (m(x, ts[j]) <==> n(y, us[j]))
    ensures var k := CommandHandler.TokenIndex(y, us, n);
      CommandHandler.TokenIndex(x, ts, m) == if k < |ts| then k else |ts|
  {
    var i := CommandHandler.TokenIndex(x, ts, m);
    var k := CommandHandler.TokenIndex(y, us, n);
    if i < |ts| {
      assert n(y, us[i]);
    }
  }

  /** Position by position, the legacy actions are what `Legacy` makes of the current
      commands. */
  lemma SharedMethods()
    ensures forall j :: 0 <= j < |Methods| ==> Legacy(Some(CommandHandler.Methods[j])) == Some(Methods[j])
    ensures forall j :: |Methods| <= j < |CommandHandler.Methods| ==> Legacy(Some(CommandHandler.Methods[j])).None?
  {
  }

  /** The legacy dispatcher picks what the current one picks, except that `update` and
      `debug` are unrecognised and `exit` ends the process. */
  lemma LegacyAgreesWithCurrent(input: string)
    ensures Route(input) == Legacy(CommandHandler.Route(input))
  {
    var lower := ToLower(input);
    SharedWords();
    forall j | 0 <= j < |AcceptedInputs|
      ensures lower == AcceptedInputs[j] <==> EqualsIgnoreCase(input, CommandHandler.AcceptedInputs[j])
    {
      ToLowerMatchesIgnoringCase(input, AcceptedInputs[j]);
    }
    FirstMatchOfPrefix(lower, AcceptedInputs, (a, b) => a == b,
                       input, CommandHandler.AcceptedInputs, (a, b) => EqualsIgnoreCase(a, b));
    SharedMethods();
    var k := CommandHandler.TokenIndex(input, CommandHandler.AcceptedInputs, (a, b) => EqualsIgnoreCase(a, b));
    if k < |Methods| {
      assert Route(input) == Some(Methods[k]);
    } else if k < |CommandHandler.Methods| {
      assert Route(input) == None;
    }
  }
}
