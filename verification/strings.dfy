/** JavaScript's `String.prototype.split` with a one-character separator,
    and its inverse `Array.prototype.join`. */
module Strings {

  /** The number of occurrences of `c` in `s`. */
  function Count(s: string, c: char): nat
  {
    if |s| == 0 then 0
    else Count(s[..|s| - 1], c) + (if s[|s| - 1] == c then 1 else 0)
  }

  /** `parts.join(sep)` */
  function Join(parts: seq<string>, sep: char): string
  {
    if |parts| == 0 then ""
    else if |parts| == 1 then parts[0]
    else Join(parts[..|parts| - 1], sep) + [sep] + parts[|parts| - 1]
  }

  /** `s.split(sep)`: the pieces between separators. There is always at least
      one piece (`"".split('.')` is `[""]`), and one more than there are
      separators. */
  function Split(s: string, sep: char): (parts: seq<string>)
    ensures |parts| == Count(s, sep) + 1
    ensures forall i :: 0 <= i < |parts| ==> sep !in parts[i]
  {
    if |s| == 0 then [""]
    else
      var init := s[..|s| - 1];
      var c := s[|s| - 1];
      var rest := Split(init, sep);
      if c == sep then
        rest + [""]
      else
        var n := |rest|;
        var parts := rest[..n - 1] + [rest[n - 1] + [c]];
        assert parts[..n - 1] == rest[..n - 1];
        parts
  }

  /** Joining the pieces with the separator gives the string back. */
  lemma {:induction false} JoinSplit(s: string, sep: char)
    ensures Join(Split(s, sep), sep) == s
  {
    if |s| > 0 {
      var init := s[..|s| - 1];
      var c := s[|s| - 1];
      var rest := Split(init, sep);
      JoinSplit(init, sep);
      assert s == init + [c];
      if c != sep {
        var n := |rest|;
        var parts := rest[..n - 1] + [rest[n - 1] + [c]];
        assert Split(s, sep) == parts;
        if n == 1 {
          assert Join(parts, sep) == rest[0] + [c];
        } else {
          assert parts[..n - 1] == rest[..n - 1];
          assert Join(parts, sep) == Join(rest[..n - 1], sep) + [sep] + rest[n - 1] + [c];
        }
      }
    }
  }

  /** Splitting what was joined gives the pieces back, when none of them
      contains the separator. */
  lemma {:induction false} SplitJoin(parts: seq<string>, sep: char)
    requires |parts| > 0
    requires forall i :: 0 <= i < |parts| ==> sep !in parts[i]
    ensures Split(Join(parts, sep), sep) == parts
  {
    if |parts| == 1 {
      SplitPiece(parts[0], sep);
    } else {
      var init := parts[..|parts| - 1];
      var last := parts[|parts| - 1];
      SplitJoin(init, sep);
      SplitAppend(Join(init, sep), last, sep);
      assert init + [last] == parts;
    }
  }

  /** A string without the separator splits into itself. */
  lemma {:induction false} SplitPiece(s: string, sep: char)
    requires sep !in s
    ensures Split(s, sep) == [s]
  {
    if |s| > 0 {
      var init := s[..|s| - 1];
      assert sep !in init;
      SplitPiece(init, sep);
      assert init + [s[|s| - 1]] == s;
    }
  }

  /** Appending a separator starts a new, empty piece... */
  lemma SplitSnocSep(s: string, sep: char)
    ensures Split(s + [sep], sep) == Split(s, sep) + [""]
  {
    assert (s + [sep])[..|s|] == s;
  }

  /** ... and appending another character extends the last piece. */
  lemma SplitSnocChar(s: string, c: char, sep: char)
    requires c != sep
    ensures var rest := Split(s, sep);
            Split(s + [c], sep) == rest[..|rest| - 1] + [rest[|rest| - 1] + [c]]
  {
    assert (s + [c])[..|s|] == s;
  }

  /** Appending a separator and a separator-free piece appends that piece. */
  lemma {:induction false} SplitAppend(s: string, piece: string, sep: char)
    requires sep !in piece
    ensures Split(s + [sep] + piece, sep) == Split(s, sep) + [piece]
    decreases |piece|
  {
    if |piece| == 0 {
      assert s + [sep] + piece == s + [sep];
      SplitSnocSep(s, sep);
    } else {
      var init := piece[..|piece| - 1];
      var c := piece[|piece| - 1];
      assert sep !in init;
      SplitAppend(s, init, sep);
      assert s + [sep] + piece == (s + [sep] + init) + [c];
      SplitSnocChar(s + [sep] + init, c, sep);
      var rest := Split(s, sep) + [init];
      assert rest[..|rest| - 1] == Split(s, sep);
      assert init + [c] == piece;
    }
  }

  /** Two pieces without the separator, joined by it, split back into the
      two pieces... */
  lemma SplitTwo(a: string, b: string, sep: char)
    requires sep !in a && sep !in b
    ensures Split(a + [sep] + b, sep) == [a, b]
  {
    SplitPiece(a, sep);
    SplitAppend(a, b, sep);
  }

  /** ... and five such pieces into the five. */
  lemma SplitFive(a: string, b: string, c: string, d: string, e: string, sep: char)
    requires sep !in a && sep !in b && sep !in c && sep !in d && sep !in e
    ensures Split(a + [sep] + b + [sep] + c + [sep] + d + [sep] + e, sep) == [a, b, c, d, e]
  {
    SplitTwo(a, b, sep);
    SplitAppend(a + [sep] + b, c, sep);
    SplitAppend(a + [sep] + b + [sep] + c, d, sep);
    SplitAppend(a + [sep] + b + [sep] + c + [sep] + d, e, sep);
  }
}
