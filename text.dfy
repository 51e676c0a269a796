/** String helpers with the meaning of Python's `str.join` and `str.split`
    for a one-character separator, and the scanning they rely on. */
module Text {

  /** `sep.join(parts)`: the parts in order with `sep` between neighbours. */
  function Join(parts: seq<string>, sep: string): (s: string)
    ensures parts == [] ==> s == []
    ensures |parts| == 1 ==> s == parts[0]
  {
    if |parts| == 0 then []
    else if |parts| == 1 then parts[0]
    else parts[0] + sep + Join(parts[1..], sep)
  }

  /** `s.split(c)`: the maximal pieces of `s` between occurrences of `c`;
      like Python, it never returns an empty list. */
  function Split(s: string, c: char): (parts: seq<string>)
    ensures |parts| >= 1
  {
    if |s| == 0 then [[]]
    else if s[0] == c then [[]] + Split(s[1..], c)
    else
      var rest := Split(s[1..], c);
      [[s[0]] + rest[0]] + rest[1..]
  }

  /** The characters of `s` before the first `c` (all of `s` if there is none). */
  function TakeUntil(s: string, c: char): (r: string)
    ensures |r| <= |s| && r == s[..|r|]
    ensures c !in r
    ensures |r| < |s| ==> s[|r|] == c
  {
    if |s| == 0 || s[0] == c then [] else [s[0]] + TakeUntil(s[1..], c)
  }

  /** The characters of `s` after the first `c` (empty if there is none). */
  function DropThrough(s: string, c: char): (r: string)
    ensures |r| <= |s| && r == s[|s| - |r|..]
    ensures |r| < |s| || r == []
  {
    if |s| == 0 then [] else if s[0] == c then s[1..] else DropThrough(s[1..], c)
  }

  /** Scanning a piece that holds no `c`, followed by `c`, stops exactly at that `c`. */
  lemma {:induction false} ScanPastPiece(x: string, c: char, y: string)
    requires c !in x
    ensures TakeUntil(x + [c] + y, c) == x
    ensures DropThrough(x + [c] + y, c) == y
  {
    if x != [] {
      assert (x + [c] + y)[1..] == x[1..] + [c] + y;
      ScanPastPiece(x[1..], c, y);
    } else {
      assert x + [c] + y == [c] + y;
    }
  }

  /** A `c` inside `x` cuts the scan short: what is read is a proper prefix of `x`. */
  lemma {:induction false} ScanStopsInside(x: string, c: char, y: string)
    requires c in x
    ensures |TakeUntil(x + y, c)| < |x|
  {
    if x[0] != c {
      assert (x + y)[1..] == x[1..] + y;
      ScanStopsInside(x[1..], c, y);
    }
  }

  /** Joining with a one-character separator a non-empty list of pieces
      that do not contain it can be undone by splitting. */
  lemma {:induction false} SplitJoin(parts: seq<string>, c: char)
    requires |parts| >= 1
    requires forall i :: 0 <= i < |parts| ==> c !in parts[i]
    ensures Split(Join(parts, [c]), c) == parts
  {
    if |parts| == 1 {
      SplitNoSeparator(parts[0], c);
    } else {
      var tail := Join(parts[1..], [c]);
      SplitJoin(parts[1..], c);
      SplitPiece(parts[0], c, tail);
    }
  }

  /** A string without the separator splits into itself alone. */
  lemma {:induction false} SplitNoSeparator(x: string, c: char)
    requires c !in x
    ensures Split(x, c) == [x]
  {
    if |x| > 0 {
      SplitNoSeparator(x[1..], c);
      assert x == [x[0]] + x[1..];
    }
  }

  /** Splitting `x + [c] + y`, with no `c` in `x`, yields `x` and then the pieces of `y`. */
  lemma {:induction false} SplitPiece(x: string, c: char, y: string)
    requires c !in x
    ensures Split(x + [c] + y, c) == [x] + Split(y, c)
  {
    if |x| == 0 {
      assert x + [c] + y == [c] + y;
      assert ([c] + y)[1..] == y;
    } else {
      var s := x + [c] + y;
      assert s[1..] == x[1..] + [c] + y;
      SplitPiece(x[1..], c, y);
      assert [x[0]] + x[1..] == x;
    }
  }

  /** No piece produced by splitting on `c` contains `c`. */
  lemma {:induction false} SplitPiecesFree(s: string, c: char)
    ensures forall i :: 0 <= i < |Split(s, c)| ==> c !in Split(s, c)[i]
  {
    if |s| > 0 {
      SplitPiecesFree(s[1..], c);
    }
  }
}
