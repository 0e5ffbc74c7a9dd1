/**
 * The string operations of the Rust standard library that the server relies on:
 * `strip_prefix`, `split_once`, `split`, `trim` and `find`, on `seq<char>`.
 */
module Text {
  import opened Wrappers

  /** Rust's `char::is_whitespace`: the Unicode White_Space property. */
  predicate IsWhitespace(c: char) {
    ('\U{9}' <= c <= '\U{D}') || c == ' ' || c == '\U{85}' || c == '\U{A0}'
    || c == '\U{1680}' || ('\U{2000}' <= c <= '\U{200A}') || c == '\U{2028}'
    || c == '\U{2029}' || c == '\U{202F}' || c == '\U{205F}' || c == '\U{3000}'
  }

  /** `s.strip_prefix(p)`: the rest of `s` after `p`, when `s` starts with `p`. */
  function StripPrefix(s: string, p: string): (r: Option<string>)
    ensures r.Some? <==> p <= s
    ensures r.Some? ==> s == p + r.value
  {
    if p <= s then Some(s[|p|..]) else None
  }

  /** The position of the first `c` in `s` (`str::find` with a one-character pattern). */
  function IndexOf(s: string, c: char): (r: Option<nat>)
    ensures r.None? <==> c !in s
    ensures r.Some? ==> r.value < |s| && s[r.value] == c && c !in s[..r.value]
  {
    if |s| == 0 then None
    else if s[0] == c then Some(0)
    else
      match IndexOf(s[1..], c)
      case None => None
      case Some(i) =>
        assert s[..i + 1] == [s[0]] + s[1..][..i];
        Some(i + 1)
  }

  /** `s.split_once(c)`: the text before and after the first `c`. */
  function SplitOnce(s: string, c: char): (r: Option<(string, string)>)
    ensures r.None? <==> c !in s
    ensures r.Some? ==> s == r.value.0 + [c] + r.value.1 && c !in r.value.0
  {
    match IndexOf(s, c)
    case None => None
    case Some(i) =>
      assert s == s[..i] + [c] + s[i + 1..];
      Some((s[..i], s[i + 1..]))
  }

  /** `s.split(c)`: every maximal run of non-`c` text, empty runs included. */
  function Split(s: string, c: char): (r: seq<string>)
    ensures |r| >= 1
    ensures forall k :: 0 <= k < |r| ==> c !in r[k]
    decreases |s|
  {
    match SplitOnce(s, c)
    case None => [s]
    case Some((before, after)) => [before] + Split(after, c)
  }

  /** The inverse of `Split`: the pieces with `c` between neighbours. */
  function Join(pieces: seq<string>, c: char): string
  {
    if |pieces| == 0 then ""
    else if |pieces| == 1 then pieces[0]
    else pieces[0] + [c] + Join(pieces[1..], c)
  }

  /** Splitting loses nothing: joining the pieces gives the original text back. */
  lemma {:induction false} JoinSplit(s: string, c: char)
    ensures Join(Split(s, c), c) == s
    decreases |s|
  {
    match SplitOnce(s, c)
    case None =>
    case Some((before, after)) =>
      JoinSplit(after, c);
      assert Split(s, c) == [before] + Split(after, c);
      assert Split(s, c)[1..] == Split(after, c);
  }

  /** Text that does not contain the separator splits into exactly one piece. */
  lemma SplitWithoutSeparator(s: string, c: char)
    requires c !in s
    ensures Split(s, c) == [s]
  {
  }

  /** Splitting a join gives the pieces back, when no piece contains the separator. */
  lemma {:induction false} SplitJoin(pieces: seq<string>, c: char)
    requires |pieces| >= 1
    requires forall k :: 0 <= k < |pieces| ==> c !in pieces[k]
    ensures Split(Join(pieces, c), c) == pieces
    decreases |pieces|
  {
    if |pieces| == 1 {
      SplitWithoutSeparator(pieces[0], c);
    } else {
      var rest := Join(pieces[1..], c);
      var s := pieces[0] + [c] + rest;
      assert Join(pieces, c) == s;
      SplitOnceAt(pieces[0], rest, c);
      SplitJoin(pieces[1..], c);
      assert pieces == [pieces[0]] + pieces[1..];
    }
  }

  /** `split_once` stops at the first separator. */
  lemma SplitOnceAt(before: string, after: string, c: char)
    requires c !in before
    ensures SplitOnce(before + [c] + after, c) == Some((before, after))
  {
    var s := before + [c] + after;
    var r := SplitOnce(s, c);
    assert c in s by { assert s[|before|] == c; }
    var i := IndexOf(s, c).value;
    assert s[..|before|] == before;
    assert forall k :: 0 <= k < i ==> s[k] != c by {
      assert forall k :: 0 <= k < i ==> s[k] == s[..i][k];
    }
    assert forall k :: 0 <= k < |before| ==> s[k] != c by {
      assert forall k :: 0 <= k < |before| ==> s[k] == before[k];
    }
    assert s[|before|] == c;
    assert i == |before|;
    assert s[..i] == before;
    assert s[i + 1..] == after;
  }

  /** The number of leading whitespace characters of `s`. */
  function LeadingSpace(s: string): (n: nat)
    ensures n <= |s|
    ensures forall k :: 0 <= k < n ==> IsWhitespace(s[k])
    ensures n < |s| ==> !IsWhitespace(s[n])
  {
    if |s| == 0 || !IsWhitespace(s[0]) then 0 else 1 + LeadingSpace(s[1..])
  }

  /** The number of trailing whitespace characters of `s`. */
  function TrailingSpace(s: string): (n: nat)
    ensures n <= |s|
    ensures forall k :: |s| - n <= k < |s| ==> IsWhitespace(s[k])
    ensures n < |s| ==> !IsWhitespace(s[|s| - n - 1])
  {
    if |s| == 0 || !IsWhitespace(s[|s| - 1]) then 0 else 1 + TrailingSpace(s[..|s| - 1])
  }

  /**
   * `str::trim`: `s` without its leading and its trailing whitespace. The result is
   * the middle of `s`, everything cut off is whitespace, and the result itself
   * neither starts nor ends with whitespace.
   */
  function Trim(s: string): (r: string)
    ensures exists i, j ::
              && 0 <= i <= j <= |s| && r == s[i..j]
              && (forall k :: 0 <= k < i ==> IsWhitespace(s[k]))
              && (forall k :: j <= k < |s| ==> IsWhitespace(s[k]))
    ensures |r| > 0 ==> !IsWhitespace(r[0]) && !IsWhitespace(r[|r| - 1])
  {
    var i := LeadingSpace(s);
    var rest := s[i..];
    var n := TrailingSpace(rest);
    var j := i + |rest| - n;
    assert rest[..|rest| - n] == s[i..j];
    assert forall k :: j <= k < |s| ==> s[k] == rest[k - i];
    s[i..j]
  }

  /** Text without whitespace at either end is left as it is by `trim`. */
  lemma TrimTrimmed(s: string)
    requires |s| > 0 ==> !IsWhitespace(s[0]) && !IsWhitespace(s[|s| - 1])
    ensures Trim(s) == s
  {
  }

  /** A leading space is cut off by `trim` like any other leading whitespace. */
  lemma TrimSpaceFirst(s: string)
    ensures Trim(" " + s) == Trim(s)
  {
    var t := " " + s;
    TrimOfRest(t);
    TrimOfRest(s);
    LeadingSpaceFirst(s);
    assert t[LeadingSpace(t)..] == s[LeadingSpace(s)..];
  }

  /** `rest` without its trailing whitespace. */
  function CutTrailing(rest: string): string {
    rest[..|rest| - TrailingSpace(rest)]
  }

  /** `trim` cuts the trailing whitespace off what follows the leading whitespace. */
  lemma TrimOfRest(s: string)
    ensures Trim(s) == CutTrailing(s[LeadingSpace(s)..])
  {
  }

  lemma LeadingSpaceFirst(s: string)
    ensures LeadingSpace(" " + s) == 1 + LeadingSpace(s)
  {
    assert (" " + s)[1..] == s;
  }
}
