/** `CommandHandler`: the table that maps a command word to the command it runs. The input
    is compared with each accepted word in turn, ignoring case, and the first match picks
    the command at the same position. */
module CommandHandler {
  import opened Results
  import opened AsciiCase
  import opened Commands

  /** The accepted command words, in table order. */
  const AcceptedInputs: seq<string> :=
    ["all_songs", "plays_over", "add", "remove", "undo", "help", "history", "exit", "update", "debug"]

  /** The command at each position of the table. */
  const Methods: seq<Command> :=
    [AllSongs, PlaysOver, Add, Remove, Undo, Help, History, Exit, Update, Debug]

  /** The position of the first word that `matches` the input, or `|tokens|` when none does. */
  function TokenIndex(input: string, tokens: seq<string>, matches: (string, string) -> bool): (i: nat)
    ensures i <= |tokens|
    ensures forall j :: 0 <= j < i ==> !matches(input, tokens[j])
    ensures i < |tokens| ==> matches(input, tokens[i])
  {
    if |tokens| == 0 then 0
    else if matches(input, tokens[0]) then 0
    else 1 + TokenIndex(input, tokens[1..], matches)
  }

  /** The command an input selects, if any. */
  function Route(input: string): (r: Option<Command>)
    ensures r.None? <==> forall j :: 0 <= j < |AcceptedInputs| ==> !EqualsIgnoreCase(input, AcceptedInputs[j])
  {
    var i := TokenIndex(input, AcceptedInputs, (a, b) => EqualsIgnoreCase(a, b));
    if i < |Methods| then Some(Methods[i]) else None
  }

  /** Two words an input matches ignoring case are the same word, when both are lower case. */
  lemma LowerCaseMatchesAreEqual(input: string, a: string, b: string)
    requires IsLowerCase(a) && IsLowerCase(b)
    requires EqualsIgnoreCase(input, a) && EqualsIgnoreCase(input, b)
    ensures a == b
  {
    assert forall i :: 0 <= i < |a| ==> a[i] == Lower(input[i]) == b[i];
  }

  /** The table pairs ten distinct lower-case words with the ten commands, each once. */
  lemma TableIsOneToOne()
    ensures |AcceptedInputs| == |Methods| == 10
    ensures forall i :: 0 <= i < |AcceptedInputs| ==> IsLowerCase(AcceptedInputs[i])
    ensures forall i, j :: 0 <= i < j < |AcceptedInputs| ==> AcceptedInputs[i] != AcceptedInputs[j]
    ensures forall i, j :: 0 <= i < j < |Methods| ==> Methods[i] != Methods[j]
    ensures forall c: Command :: c in Methods
  {
    assert forall i :: 0 <= i < |AcceptedInputs| ==> IsLowerCase(AcceptedInputs[i]) by {
      forall i | 0 <= i < |AcceptedInputs|
        ensures IsLowerCase(AcceptedInputs[i])
      {
        var w := AcceptedInputs[i];
        assert forall k :: 0 <= k < |w| ==> w[k] == '_' || 'a' <= w[k] <= 'z';
      }
    }
    forall c: Command
      ensures c in Methods
    {
      match c
      case AllSongs => assert Methods[0] == c;
      case PlaysOver => assert Methods[1] == c;
      case Add => assert Methods[2] == c;
      case Remove => assert Methods[3] == c;
      case Undo => assert Methods[4] == c;
      case Help => assert Methods[5] == c;
      case History => assert Methods[6] == c;
      case Exit => assert Methods[7] == c;
      case Update => assert Methods[8] == c;
      case Debug => assert Methods[9] == c;
    }
  }

  /** An input selects the command at position `i` exactly when it equals the word at
      position `i` ignoring case: no earlier word can shadow it. */
  lemma RouteFindsToken(input: string, i: nat)
    requires i < |AcceptedInputs|
    ensures Route(input) == Some(Methods[i]) <==> EqualsIgnoreCase(input, AcceptedInputs[i])
  {
    TableIsOneToOne();
    var k := TokenIndex(input, AcceptedInputs, (a, b) => EqualsIgnoreCase(a, b));
    if EqualsIgnoreCase(input, AcceptedInputs[i]) {
      assert k <= i;
      if k < i {
        LowerCaseMatchesAreEqual(input, AcceptedInputs[k], AcceptedInputs[i]);
        assert false;
      }
    }
    if Route(input) == Some(Methods[i]) {
      assert k < |Methods| && Methods[k] == Methods[i];
      assert k == i;
    }
  }

  /** `handleCommand`: runs the command whose word the input matches ignoring case;
      any other input is reported as unrecognised and changes nothing. */
  function HandleCommand(input: string, s: Session, inputs: seq<string>): (h: Handled)
    ensures forall i :: 0 <= i < |AcceptedInputs| && EqualsIgnoreCase(input, AcceptedInputs[i]) ==>
      h == Execute(Methods[i], s, inputs)
    ensures (forall i :: 0 <= i < |AcceptedInputs| ==> !EqualsIgnoreCase(input, AcceptedInputs[i])) ==>
      h == NoChange(s, inputs)
    ensures ReadPrefix(h, inputs)
  {
    forall i | 0 <= i < |AcceptedInputs|
      ensures Route(input) == Some(Methods[i]) <==> EqualsIgnoreCase(input, AcceptedInputs[i])
    {
      RouteFindsToken(input, i);
    }
    match Route(input)
    case None => NoChange(s, inputs)
    case Some(c) => Execute(c, s, inputs)
  }
}
