/** `String.split(", ")`: Java's regex split with the literal delimiter comma-space and the
    default limit, which scans left to right for non-overlapping matches and then drops
    trailing empty strings. */
module FieldSplit {

  const Delimiter: string := ", "

  /** The delimiter occurs in `s` starting at index `i`. */
  predicate DelimiterAt(s: string, i: int) {
    0 <= i && i + 1 < |s| && s[i] == ',' && s[i + 1] == ' '
  }

  predicate HasDelimiter(s: string) {
    exists i :: 0 <= i < |s| && DelimiterAt(s, i)
  }

  /** The index of the first occurrence of the delimiter in `s`, or -1. */
  function IndexOfDelimiter(s: string): (i: int)
    ensures -1 <= i < |s|
    ensures i >= 0 ==> DelimiterAt(s, i)
    decreases |s|
  {
    if |s| < 2 then -1
    else if s[0] == ',' && s[1] == ' ' then 0
    else
      var k := IndexOfDelimiter(s[1..]);
      if k < 0 then -1 else k + 1
  }

  /** The index found is the first occurrence, and -1 means there is none. */
  lemma {:induction false} IndexOfDelimiterIsFirst(s: string)
    ensures var i := IndexOfDelimiter(s);
      && (i >= 0 ==> forall j :: 0 <= j < i ==> !DelimiterAt(s, j))
      && (i < 0 <==> !HasDelimiter(s))
    decreases |s|
  {
    if |s| >= 2 && !(s[0] == ',' && s[1] == ' ') {
      IndexOfDelimiterIsFirst(s[1..]);
      assert !DelimiterAt(s, 0);
      assert forall j {:trigger DelimiterAt(s, j)} :: 1 <= j ==> (DelimiterAt(s, j) <==> DelimiterAt(s[1..], j - 1));
    }
  }

  /** The pieces between successive delimiters, before trailing empties are dropped. */
  function SplitPieces(s: string): (ps: seq<string>)
    ensures |ps| > 0
    decreases |s|
  {
    var i := IndexOfDelimiter(s);
    if i < 0 then [s] else [s[..i]] + SplitPieces(s[i + 2..])
  }

  /** Removes empty strings from the end of a sequence. */
  function DropTrailingEmpty(xs: seq<string>): (r: seq<string>)
    ensures |r| <= |xs|
    decreases |xs|
  {
    if |xs| > 0 && xs[|xs| - 1] == "" then DropTrailingEmpty(xs[..|xs| - 1]) else xs
  }

  /** Dropping trailing empties keeps a prefix in order, ends on a non-empty string, and
      drops only empty strings. */
  lemma {:induction false} DropTrailingEmptyKeepsPrefix(xs: seq<string>)
    ensures var r := DropTrailingEmpty(xs);
      && r == xs[..|r|]
      && (|r| > 0 ==> r[|r| - 1] != "")
      && (forall i :: |r| <= i < |xs| ==> xs[i] == "")
    decreases |xs|
  {
    if |xs| > 0 && xs[|xs| - 1] == "" {
      DropTrailingEmptyKeepsPrefix(xs[..|xs| - 1]);
    }
  }

  /** `s.split(", ")`. When the delimiter does not occur at all the result is `[s]`, even for
      the empty string. */
  function Split(s: string): seq<string> {
    if IndexOfDelimiter(s) < 0 then [s] else DropTrailingEmpty(SplitPieces(s))
  }

  /** Rebuilds a string from its pieces by putting the delimiter back between them. */
  function JoinPieces(ps: seq<string>): string
    decreases |ps|
  {
    if |ps| == 0 then ""
    else if |ps| == 1 then ps[0]
    else ps[0] + Delimiter + JoinPieces(ps[1..])
  }

  /** Cutting at the delimiters and gluing back together loses nothing. */
  lemma {:induction false} JoinSplitPieces(s: string)
    ensures JoinPieces(SplitPieces(s)) == s
    decreases |s|
  {
    var i := IndexOfDelimiter(s);
    if i >= 0 {
      JoinSplitPieces(s[i + 2..]);
      assert s == s[..i] + Delimiter + s[i + 2..];
    }
  }

  /** No piece contains the delimiter, and every piece is a slice of `s`, so a
      character property of `s` carries over to every piece. */
  lemma {:induction false} PiecesAreClean(s: string, p: char -> bool)
    requires forall k :: 0 <= k < |s| ==> p(s[k])
    ensures forall j :: 0 <= j < |SplitPieces(s)| ==> !HasDelimiter(SplitPieces(s)[j])
    ensures forall j, k :: 0 <= j < |SplitPieces(s)| && 0 <= k < |SplitPieces(s)[j]| ==> p(SplitPieces(s)[j][k])
    decreases |s|
  {
    var i := IndexOfDelimiter(s);
    IndexOfDelimiterIsFirst(s);
    if i >= 0 {
      var head := s[..i];
      assert !HasDelimiter(head) by {
        forall j | DelimiterAt(head, j) ensures false {
          assert DelimiterAt(s, j);
        }
      }
      PiecesAreClean(s[i + 2..], p);
    }
  }

  /** The fields `split` returns never contain the delimiter and keep any character
      property of the input line. */
  lemma SplitFieldsAreClean(s: string, p: char -> bool)
    requires forall k :: 0 <= k < |s| ==> p(s[k])
    ensures forall j :: 0 <= j < |Split(s)| ==> !HasDelimiter(Split(s)[j])
    ensures forall j, k :: 0 <= j < |Split(s)| && 0 <= k < |Split(s)[j]| ==> p(Split(s)[j][k])
  {
    PiecesAreClean(s, p);
    DropTrailingEmptyKeepsPrefix(SplitPieces(s));
    if IndexOfDelimiter(s) < 0 {
      assert Split(s) == [s];
    }
  }

  /** When the first piece has no delimiter of its own, the first match in
      `a + ", " + b` is the one right after `a`: a comma ending `a` is followed by the
      delimiter's comma, not by a space. */
  lemma FirstDelimiterAfter(a: string, b: string)
    requires !HasDelimiter(a)
    ensures IndexOfDelimiter(a + Delimiter + b) == |a|
  {
    var s := a + Delimiter + b;
    IndexOfDelimiterIsFirst(s);
    assert DelimiterAt(s, |a|);
    forall j | 0 <= j < |a|
      ensures !DelimiterAt(s, j)
    {
      if j + 1 < |a| {
        assert !DelimiterAt(a, j);
      }
    }
  }

  /** Splitting pieces that hold no delimiter gives back exactly those pieces. */
  lemma {:induction false} SplitPiecesOfJoin(ps: seq<string>)
    requires |ps| > 0
    requires forall j :: 0 <= j < |ps| ==> !HasDelimiter(ps[j])
    ensures SplitPieces(JoinPieces(ps)) == ps
    decreases |ps|
  {
    if |ps| > 1 {
      var rest := JoinPieces(ps[1..]);
      FirstDelimiterAfter(ps[0], rest);
      var s := ps[0] + Delimiter + rest;
      assert s[..|ps[0]|] == ps[0];
      assert s[|ps[0]| + 2..] == rest;
      SplitPiecesOfJoin(ps[1..]);
    }
  }

  /** `split` inverts joining two or more delimiter-free fields whose last field is
      non-empty. */
  lemma SplitOfJoin(ps: seq<string>)
    requires |ps| > 1 && ps[|ps| - 1] != ""
    requires forall j :: 0 <= j < |ps| ==> !HasDelimiter(ps[j])
    ensures Split(JoinPieces(ps)) == ps
  {
    SplitPiecesOfJoin(ps);
    FirstDelimiterAfter(ps[0], JoinPieces(ps[1..]));
  }

  /** `n` delimiters in a row. */
  function Delimiters(n: nat): string
    decreases n
  {
    if n == 0 then "" else Delimiter + Delimiters(n - 1)
  }

  /** `n` empty strings. */
  function Empties(n: nat): (r: seq<string>)
    ensures |r| == n && forall i :: 0 <= i < n ==> r[i] == ""
  {
    seq(n, i => "")
  }

  /** Joining only empty pieces leaves just the delimiters between them. */
  lemma {:induction false} JoinEmpties(m: nat)
    requires m >= 1
    ensures JoinPieces(Empties(m)) == Delimiters(m - 1)
    decreases m
  {
    if m > 1 {
      JoinEmpties(m - 1);
      assert Empties(m)[1..] == Empties(m - 1);
    }
  }

  /** Joining pieces followed by `m` empty ones adds `m` delimiters at the end. */
  lemma {:induction false} JoinWithEmpties(r: seq<string>, m: nat)
    requires |r| > 0
    ensures JoinPieces(r + Empties(m)) == JoinPieces(r) + Delimiters(m)
    decreases |r|
  {
    var xs := r + Empties(m);
    if |r| == 1 {
      if m == 0 {
        assert xs == r;
      } else {
        JoinEmpties(m);
        assert xs[1..] == Empties(m);
        assert JoinPieces(xs) == r[0] + Delimiter + Delimiters(m - 1);
      }
    } else {
      assert xs[1..] == r[1..] + Empties(m);
      JoinWithEmpties(r[1..], m);
      assert JoinPieces(xs) == r[0] + Delimiter + (JoinPieces(r[1..]) + Delimiters(m));
    }
  }

  /** What `split` returns when the line holds the delimiter: the pieces less their
      trailing empty ones, which were `m` empty pieces. */
  lemma SplitDropsEmpties(s: string) returns (m: nat)
    requires HasDelimiter(s)
    ensures SplitPieces(s) == Split(s) + Empties(m)
  {
    var ps := SplitPieces(s);
    IndexOfDelimiterIsFirst(s);
    DropTrailingEmptyKeepsPrefix(ps);
    m := |ps| - |Split(s)|;
    assert ps == Split(s) + Empties(m);
  }

  /** What `split` returns. A line without the delimiter is its only field. Otherwise the
      last field is non-empty, and joining the fields gives back the line less the `n`
      delimiters of its dropped trailing empty fields; when every field was empty, the line
      is nothing but delimiters. */
  lemma SplitRejoins(s: string) returns (n: nat)
    ensures !HasDelimiter(s) ==> Split(s) == [s] && n == 0
    ensures HasDelimiter(s) && |Split(s)| > 0 ==> Split(s)[|Split(s)| - 1] != ""
    ensures |Split(s)| > 0 ==> s == JoinPieces(Split(s)) + Delimiters(n)
    ensures |Split(s)| == 0 ==> HasDelimiter(s) && s == Delimiters(n)
  {
    IndexOfDelimiterIsFirst(s);
    DropTrailingEmptyKeepsPrefix(SplitPieces(s));
    if !HasDelimiter(s) {
      n := 0;
    } else {
      var m := SplitDropsEmpties(s);
      JoinSplitPieces(s);
      if |Split(s)| > 0 {
        JoinWithEmpties(Split(s), m);
        n := m;
      } else {
        assert SplitPieces(s) == Empties(m);
        JoinEmpties(m);
        n := m - 1;
      }
    }
  }
}
