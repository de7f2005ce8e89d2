/** The song list held in memory: lookup, removal, filtering, listing, and the whole-file
    load and save. */
module SongStore {
  import opened Results
  import opened JavaInt
  import opened TextFile
  import opened SongRecord

  /** `findLineByName`: the first index whose song has exactly this name, or -1. */
  function FindLineByName(lines: seq<Song>, name: string): (i: int)
    ensures -1 <= i < |lines|
    ensures i >= 0 ==> lines[i].name == name
    decreases |lines|
  {
    if |lines| == 0 then -1
    else if lines[0].name == name then 0
    else
      var k := FindLineByName(lines[1..], name);
      if k < 0 then -1 else k + 1
  }

  /** The index found is the first with the name, and -1 means that no song has it. */
  lemma {:induction false} FindLineByNameIsFirst(lines: seq<Song>, name: string)
    ensures var i := FindLineByName(lines, name);
      && (i >= 0 ==> forall j {:trigger lines[j].name} :: 0 <= j < i ==> lines[j].name != name)
      && (i == -1 <==> forall j {:trigger lines[j].name} :: 0 <= j < |lines| ==> lines[j].name != name)
    decreases |lines|
  {
    if |lines| > 0 && lines[0].name != name {
      FindLineByNameIsFirst(lines[1..], name);
      assert forall j {:trigger lines[j].name} :: 1 <= j < |lines| ==> lines[j].name == lines[1..][j - 1].name;
    }
  }

  /** `removeSong`: walks the list and drops the first song with this name; `None` when no
      song has it. */
  function RemoveSong(lines: seq<Song>, name: string): (r: Option<seq<Song>>)
    ensures r.None? <==> FindLineByName(lines, name) == -1
    ensures r.Some? ==> |r.value| == |lines| - 1
    decreases |lines|
  {
    if |lines| == 0 then None
    else if lines[0].name == name then Some(lines[1..])
    else
      match RemoveSong(lines[1..], name)
      case None => None
      case Some(tail) => Some([lines[0]] + tail)
  }

  /** A removal drops the song at the first match and keeps every other song in order. */
  lemma {:induction false} RemoveSongKeepsOthers(lines: seq<Song>, name: string)
    requires RemoveSong(lines, name).Some?
    ensures var r := RemoveSong(lines, name).value; var i := FindLineByName(lines, name);
      && (forall j :: 0 <= j < i ==> r[j] == lines[j])
      && (forall j :: i <= j < |r| ==> r[j] == lines[j + 1])
    decreases |lines|
  {
    if lines[0].name != name {
      RemoveSongKeepsOthers(lines[1..], name);
      var tail := RemoveSong(lines[1..], name).value;
      assert forall j :: 1 <= j <= |tail| ==> ([lines[0]] + tail)[j] == tail[j - 1];
    }
  }

  /** The list a removal leaves is the songs before the first match followed by the songs
      after it. */
  lemma RemoveSongSlices(lines: seq<Song>, name: string)
    requires RemoveSong(lines, name).Some?
    ensures var i := FindLineByName(lines, name);
      RemoveSong(lines, name).value == lines[..i] + lines[i + 1..]
  {
    RemoveSongKeepsOthers(lines, name);
  }

  /** Removing a song and appending it again gives back the same songs (in another order
      unless it was the last one). */
  lemma RemoveThenAppendKeepsSongs(lines: seq<Song>, name: string)
    requires RemoveSong(lines, name).Some?
    ensures var i := FindLineByName(lines, name);
      multiset(RemoveSong(lines, name).value + [lines[i]]) == multiset(lines)
  {
    var i := FindLineByName(lines, name);
    RemoveSongSlices(lines, name);
    MultisetOfRemoval(lines, i);
  }

  /** Taking out one entry and putting it at the end keeps the same entries. */
  lemma MultisetOfRemoval<T>(xs: seq<T>, i: nat)
    requires i < |xs|
    ensures multiset(xs[..i] + xs[i + 1..] + [xs[i]]) == multiset(xs)
  {
    assert xs == xs[..i] + [xs[i]] + xs[i + 1..];
  }

  /** The songs with strictly more than `minPlays` plays, in their original order. */
  function SongsOver(lines: seq<Song>, minPlays: int32): (r: seq<Song>)
    ensures forall s :: s in r <==> s in lines && s.plays > minPlays
    ensures multiset(r) <= multiset(lines) && |r| <= |lines|
    decreases |lines|
  {
    if |lines| == 0 then []
    else
      var tail := SongsOver(lines[1..], minPlays);
      assert lines == [lines[0]] + lines[1..];
      if lines[0].plays > minPlays then [lines[0]] + tail else tail
  }

  /** Filtering a list is filtering its parts: the selection keeps the list's order. */
  lemma {:induction false} SongsOverAppend(a: seq<Song>, b: seq<Song>, minPlays: int32)
    ensures SongsOver(a + b, minPlays) == SongsOver(a, minPlays) + SongsOver(b, minPlays)
    decreases |a|
  {
    if |a| > 0 {
      assert (a + b)[0] == a[0];
      assert (a + b)[1..] == a[1..] + b;
      SongsOverAppend(a[1..], b, minPlays);
    } else {
      assert a + b == b;
    }
  }

  /** The names of the songs, in order. */
  function Names(lines: seq<Song>): (r: seq<string>)
    ensures |r| == |lines| && forall i :: 0 <= i < |lines| ==> r[i] == lines[i].name
  {
    seq(|lines|, i requires 0 <= i < |lines| => lines[i].name)
  }

  /** What a listing command shows: names, and whether the "nothing to show" notice was
      printed instead. */
  datatype Listing = Listing(names: seq<string>, emptyNotice: bool)

  /** `printSongs`: every name, or only the notice when no song is stored. */
  function PrintSongs(lines: seq<Song>): (r: Listing)
    ensures r.emptyNotice <==> |lines| == 0
    ensures |r.names| == |lines| && forall i :: 0 <= i < |lines| ==> r.names[i] == lines[i].name
  {
    if |lines| == 0 then Listing([], true) else Listing(Names(lines), false)
  }

  /** `printSongsOverNum`: the names of the songs over the threshold, and the notice
      exactly when there is none. */
  function PrintSongsOverNum(lines: seq<Song>, minPlays: int32): (r: Listing)
    ensures r.emptyNotice <==> forall i :: 0 <= i < |lines| ==> lines[i].plays <= minPlays
    ensures |r.names| <= |lines|
    ensures forall i :: 0 <= i < |lines| && lines[i].plays > minPlays ==> lines[i].name in r.names
    ensures forall k :: 0 <= k < |r.names| ==>
      exists s :: s in lines && s.plays > minPlays && s.name == r.names[k]
  {
    var selected := SongsOver(lines, minPlays);
    assert forall i :: 0 <= i < |lines| && lines[i].plays > minPlays ==> lines[i] in selected;
    Listing(Names(selected), |selected| == 0)
  }

  /** Parses every line with `parse`, stopping at the first line that fails. */
  function ParseAll<T, E>(lines: seq<string>, parse: string -> Result<T, E>): (r: Result<seq<T>, E>)
    ensures r.Ok? <==> forall i :: 0 <= i < |lines| ==> parse(lines[i]).Ok?
    ensures r.Ok? ==> |r.value| == |lines| && forall i :: 0 <= i < |lines| ==> parse(lines[i]) == Ok(r.value[i])
    ensures r.Err? ==> exists i :: 0 <= i < |lines| && parse(lines[i]) == Err(r.error)
                        && forall j :: 0 <= j < i ==> parse(lines[j]).Ok?
    decreases |lines|
  {
    if |lines| == 0 then Ok([])
    else
      match parse(lines[0])
      case Err(e) => Err(e)
      case Ok(s) =>
        match ParseAll(lines[1..], parse)
        case Err(e) =>
          assert forall i :: 1 <= i < |lines| ==> lines[i] == lines[1..][i - 1];
          Err(e)
        case Ok(rest) =>
          assert forall i :: 1 <= i < |lines| ==> lines[i] == lines[1..][i - 1];
          Ok([s] + rest)
  }

  /** `getSongLines`: every line parsed by `makeSongFromInput`, or the error of the first
      line that does not parse; nothing is loaded from a file with a bad line. */
  function Load(lines: seq<string>): (r: Result<seq<Song>, ParseError>)
    ensures r.Ok? <==> forall i :: 0 <= i < |lines| ==> MakeSongFromInput(lines[i]).Ok?
    ensures r.Ok? ==> |r.value| == |lines| && forall i :: 0 <= i < |lines| ==> MakeSongFromInput(lines[i]) == Ok(r.value[i])
    ensures r.Err? ==> exists i :: 0 <= i < |lines| && MakeSongFromInput(lines[i]) == Err(r.error)
                        && forall j :: 0 <= j < i ==> MakeSongFromInput(lines[j]).Ok?
  {
    ParseAll(lines, MakeSongFromInput)
  }

  /** The lines `updateSongFile` writes, one per song. */
  function FormatLines(songs: seq<Song>): (r: seq<string>)
    ensures |r| == |songs| && forall i :: 0 <= i < |songs| ==> r[i] == FormatLine(songs[i])
  {
    seq(|songs|, i requires 0 <= i < |songs| => FormatLine(songs[i]))
  }

  /** Every saved line of songs that can be saved is one non-empty line of the file. */
  lemma FormatLinesAreOneLine(songs: seq<Song>)
    requires AllEncodable(songs)
    ensures forall j :: 0 <= j < |songs| ==> NoTerminators(FormatLines(songs)[j]) && FormatLines(songs)[j] != ""
  {
    forall j | 0 <= j < |songs|
      ensures NoTerminators(FormatLines(songs)[j]) && FormatLines(songs)[j] != ""
    {
      FormatLineIsOneLine(songs[j]);
    }
  }

  /** `updateSongFile`: the file text for a list of songs. No songs give the empty file.
      When every song can be saved, the file reads back as one saved line per song, and it
      ends with the last song's line, with no newline after it. */
  function Serialise(songs: seq<Song>): (r: string)
    ensures |songs| == 0 ==> r == ""
    ensures AllEncodable(songs) ==> ReadAllLines(r) == FormatLines(songs)
    ensures AllEncodable(songs) && |songs| > 0 ==>
      && EndsWith(r, FormatLine(songs[|songs| - 1])) && r != "" && r[|r| - 1] != '\n'
  {
    var lines := FormatLines(songs);
    if AllEncodable(songs) then
      FormatLinesAreOneLine(songs);
      ReadJoinedLines(lines);
      JoinLines(lines)
    else
      JoinLines(lines)
  }

  /** Every song of the list can be saved and loaded again. */
  predicate AllEncodable(songs: seq<Song>) {
    forall i :: 0 <= i < |songs| ==> Encodable(songs[i])
  }

  /** Loading a saved song list gives back exactly that list. */
  lemma LoadSerialised(songs: seq<Song>)
    requires AllEncodable(songs)
    ensures Load(ReadAllLines(Serialise(songs))) == Ok(songs)
  {
    var lines := FormatLines(songs);
    forall i | 0 <= i < |songs|
      ensures MakeSongFromInput(lines[i]) == Ok(songs[i])
    {
      MakeSongOfFormat(songs[i]);
    }
    var r := Load(lines);
    assert r.Ok?;
    assert r.value == songs;
  }

  /** Every song loaded from lines without line breaks can be saved and loaded again. */
  lemma LoadedSongsAreEncodable(lines: seq<string>)
    requires forall j :: 0 <= j < |lines| ==> NoTerminators(lines[j])
    requires Load(lines).Ok?
    ensures AllEncodable(Load(lines).value)
  {
    var songs := Load(lines).value;
    forall i | 0 <= i < |songs|
      ensures Encodable(songs[i])
    {
      ParsedSongIsEncodable(lines[i]);
    }
  }
}
