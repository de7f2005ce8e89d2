/** The immutable song record and its one-line text form `name, artist, plays`. */
module SongRecord {
  import opened Results
  import opened JavaInt
  import opened FieldSplit
  import opened TextFile

  /** A song. The fields are fixed at construction and there are no setters: a changed
      song is a new value. */
  datatype Song = Song(name: string, artist: string, plays: int32)

  /** Why a line is not a song: `FormatError` is the IOException for a field count other
      than three, `RangeError` the NumberFormatException for a bad play count. */
  datatype ParseError = FormatError | RangeError

  /** The older parsing constructor `Song(String)`: three fields and an `int` third field,
      which may be negative. */
  function FromLine(line: string): (r: Result<Song, ParseError>)
    ensures r == Err(FormatError) <==> |Split(line)| != 3
    ensures |Split(line)| == 3 ==> (r == Err(RangeError) <==> ParseInt(Split(line)[2]).None?)
    ensures r.Ok? ==> && r.value.name == Split(line)[0] && r.value.artist == Split(line)[1]
                      && ParseInt(Split(line)[2]) == Some(r.value.plays)
    ensures r.Ok? ==> !HasDelimiter(r.value.name) && !HasDelimiter(r.value.artist)
  {
    var fields := Split(line);
    if |fields| != 3 then Err(FormatError)
    else
      PiecesClean(line);
      match ParseInt(fields[2])
      case None => Err(RangeError)
      case Some(n) => Ok(Song(fields[0], fields[1], n))
  }

  /** `Main.makeSongFromInput`: as `FromLine`, and in addition a negative play count is
      a NumberFormatException. */
  function MakeSongFromInput(line: string): (r: Result<Song, ParseError>)
    ensures r == Err(FormatError) <==> |Split(line)| != 3
    ensures |Split(line)| == 3 ==>
      (r == Err(RangeError) <==> ParseInt(Split(line)[2]).None? || ParseInt(Split(line)[2]).value < 0)
    ensures r.Ok? ==> && r.value.name == Split(line)[0] && r.value.artist == Split(line)[1]
                      && ParseInt(Split(line)[2]) == Some(r.value.plays)
    ensures r.Ok? ==> r.value.plays >= 0 && !HasDelimiter(r.value.name) && !HasDelimiter(r.value.artist)
  {
    var fields := Split(line);
    if |fields| != 3 then Err(FormatError)
    else
      PiecesClean(line);
      match ParseInt(fields[2])
      case None => Err(RangeError)
      case Some(n) => if n < 0 then Err(RangeError) else Ok(Song(fields[0], fields[1], n))
  }

  /** No field `split` returns holds the delimiter. */
  lemma PiecesClean(line: string)
    ensures forall j :: 0 <= j < |Split(line)| ==> !HasDelimiter(Split(line)[j])
  {
    SplitFieldsAreClean(line, c => true);
  }

  /** The line `updateSongFile` writes for one song. */
  function FormatLine(s: Song): string {
    JoinPieces([s.name, s.artist, IntToString(s.plays as int)])
  }

  /** The formatted line spelled out: the three fields with the delimiter between them. */
  lemma FormatLineLayout(s: Song)
    ensures FormatLine(s) == s.name + ", " + s.artist + ", " + IntToString(s.plays as int)
  {
    var num := IntToString(s.plays as int);
    var ps := [s.name, s.artist, num];
    assert ps[1..] == [s.artist, num];
    assert ps[1..][1..] == [num];
    assert JoinPieces([num]) == num;
    assert JoinPieces([s.artist, num]) == s.artist + Delimiter + num;
    assert JoinPieces(ps) == s.name + Delimiter + (s.artist + Delimiter + num);
  }

  /** A song whose line reads back as itself: no delimiter and no line break inside its
      name or artist, and a non-negative play count. */
  predicate Encodable(s: Song) {
    && s.plays >= 0
    && !HasDelimiter(s.name) && !HasDelimiter(s.artist)
    && NoTerminators(s.name) && NoTerminators(s.artist)
  }

  /** The digits of a play count hold neither a delimiter nor a line break. */
  lemma NumeralIsPlain(n: int)
    ensures !HasDelimiter(IntToString(n)) && NoTerminators(IntToString(n)) && IntToString(n) != ""
  {
    IntToStringCharacters(n);
  }

  /** `Song(String)` reads back any formatted song whose name and artist hold no
      delimiter, whatever the sign of its play count. */
  lemma FromLineOfFormat(s: Song)
    requires !HasDelimiter(s.name) && !HasDelimiter(s.artist)
    ensures FromLine(FormatLine(s)) == Ok(s)
  {
    var ps := [s.name, s.artist, IntToString(s.plays as int)];
    NumeralIsPlain(s.plays as int);
    SplitOfJoin(ps);
    ParseIntToString(s.plays);
  }

  /** `makeSongFromInput` reads back a formatted song when its play count is not negative
      and its name and artist hold no delimiter. */
  lemma MakeSongOfFormat(s: Song)
    requires s.plays >= 0 && !HasDelimiter(s.name) && !HasDelimiter(s.artist)
    ensures MakeSongFromInput(FormatLine(s)) == Ok(s)
  {
    FromLineOfFormat(s);
  }

  /** The two parsers agree except that `makeSongFromInput` also rejects negative counts. */
  lemma MakeSongRefinesFromLine(line: string)
    ensures MakeSongFromInput(line).Ok? <==> FromLine(line).Ok? && FromLine(line).value.plays >= 0
    ensures MakeSongFromInput(line).Ok? ==> MakeSongFromInput(line) == FromLine(line)
    ensures FromLine(line).Err? ==> MakeSongFromInput(line) == FromLine(line)
  {
  }

  /** A song parsed from an input line without line breaks can be written and read back. */
  lemma ParsedSongIsEncodable(line: string)
    requires NoTerminators(line) && MakeSongFromInput(line).Ok?
    ensures Encodable(MakeSongFromInput(line).value)
  {
    SplitFieldsAreClean(line, c => !IsTerminator(c));
  }

  /** A formatted line is non-empty and has no line break, so it is one line of the file. */
  lemma FormatLineIsOneLine(s: Song)
    requires Encodable(s)
    ensures NoTerminators(FormatLine(s)) && FormatLine(s) != ""
  {
    NumeralIsPlain(s.plays as int);
    var line := FormatLine(s);
    var num := IntToString(s.plays as int);
    FormatLineLayout(s);
    assert forall i :: 0 <= i < |line| ==> !IsTerminator(line[i]) by {
      forall i | 0 <= i < |line|
        ensures !IsTerminator(line[i])
      {
        if i < |s.name| {
          assert line[i] == s.name[i];
        } else if i < |s.name| + 2 {
        } else if i < |s.name| + 2 + |s.artist| {
          assert line[i] == s.artist[i - |s.name| - 2];
        } else if i < |s.name| + 4 + |s.artist| {
        } else {
          assert line[i] == num[i - |s.name| - 4 - |s.artist|];
        }
      }
    }
  }

  /** Formatting a parsed line rebuilds it exactly when the line had exactly three pieces
      and its count was written canonically. */
  lemma FormatOfParsedLine(line: string)
    requires MakeSongFromInput(line).Ok?
    requires |SplitPieces(line)| == 3
    requires IntToString(MakeSongFromInput(line).value.plays as int) == SplitPieces(line)[2]
    ensures FormatLine(MakeSongFromInput(line).value) == line
  {
    JoinSplitPieces(line);
    var ps := SplitPieces(line);
    NumeralIsPlain(MakeSongFromInput(line).value.plays as int);
    assert IndexOfDelimiter(line) >= 0;
    assert DropTrailingEmpty(ps) == ps;
    assert Split(line) == ps;
    assert [ps[0], ps[1], ps[2]] == ps;
  }

  /** Parsing drops empty fields at the end of a line, so `x, y, 5, , ` is accepted as the
      song `x, y, 5` and is not rebuilt by formatting. */
  lemma TrailingEmptyFieldsDropped()
    ensures MakeSongFromInput("x, y, 5, , ") == Ok(Song("x", "y", 5))
    ensures FormatLine(Song("x", "y", 5)) != "x, y, 5, , "
  {
    SplitWithTrailingEmpties();
    CountFive();
    ShortFormat();
  }

  // The lemmas from here to the end of the module are the steps of the proof of
  // `TrailingEmptyFieldsDropped` on its one input.

  /** The count 5 is written, and read back, as `5`. */
  lemma CountFive()
    ensures IntToString(5) == "5" && ParseInt("5") == Some(5)
  {
    ParseIntToString(5);
  }

  /** The song `x, y, 5` is written as seven characters. */
  lemma ShortFormat()
    ensures |FormatLine(Song("x", "y", 5))| == 7
  {
    CountFive();
    FormatLineLayout(Song("x", "y", 5));
  }

  /** `split` drops the two empty fields at the end of `x, y, 5, , `. */
  lemma SplitWithTrailingEmpties()
    ensures Split("x, y, 5, , ") == ["x", "y", "5"]
  {
    var ps := ["x", "y", "5", "", ""];
    JoinTrailingEmpties();
    assert forall j :: 0 <= j < |ps| ==> |ps[j]| < 2;
    SplitPiecesOfJoin(ps);
    assert IndexOfDelimiter("x, y, 5, , ") == 1;
    DropTwoEmpties();
  }

  /** Joining a first piece to at least one more puts the delimiter after it. */
  lemma JoinFirst(p: string, ps: seq<string>)
    requires |ps| > 0
    ensures JoinPieces([p] + ps) == p + Delimiter + JoinPieces(ps)
  {
    assert ([p] + ps)[1..] == ps;
  }

  /** `x, y, 5, , ` is five pieces, the last two empty, joined by the delimiter. */
  lemma JoinTrailingEmpties()
    ensures JoinPieces(["x", "y", "5", "", ""]) == "x, y, 5, , "
  {
    JoinFirst("", [""]);
    assert JoinPieces(["", ""]) == ", ";
    JoinFirst("5", ["", ""]);
    assert JoinPieces(["5", "", ""]) == "5, , ";
    JoinFirst("y", ["5", "", ""]);
    assert JoinPieces(["y", "5", "", ""]) == "y, 5, , ";
    JoinFirst("x", ["y", "5", "", ""]);
  }

  /** Dropping trailing empties from the five pieces leaves the first three. */
  lemma DropTwoEmpties()
    ensures DropTrailingEmpty(["x", "y", "5", "", ""]) == ["x", "y", "5"]
  {
    var ps := ["x", "y", "5", "", ""];
    assert ps[..4] == ["x", "y", "5", ""];
    assert ps[..4][..3] == ["x", "y", "5"];
  }
}
