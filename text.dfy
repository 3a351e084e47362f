/**
 * The few `str` operations the client applies to names, `--set` items, CORS
 * hosts and table cells: `split(sep, 1)`, `replace`, `upper`, `strip(chars)`
 * and `sep.join`. Characters are compared as given; `Upper` covers ASCII only.
 */
module Text {
  import opened Wrappers

  /** Index of the first `c` in `s`, or `|s|` when `s` holds no `c`. */
  function IndexOf(s: string, c: char): (i: nat)
    ensures i <= |s|
    ensures i < |s| ==> s[i] == c
    ensures forall k :: 0 <= k < i ==> s[k] != c
  {
    if s == [] then 0
    else if s[0] == c then 0
    else 1 + IndexOf(s[1..], c)
  }

  /**
   * `s.split(sep, 1)` unpacked into two names: the text before the first
   * `sep` and everything after it, or `None` when the split yields a single
   * part (Python then raises `ValueError` on the unpacking).
   */
  function SplitOnce(s: string, sep: char): (r: Option<(string, string)>)
    ensures r.None? <==> sep !in s
    ensures r.Some? ==> r.value.0 + [sep] + r.value.1 == s && sep !in r.value.0
  {
    var i := IndexOf(s, sep);
    if i == |s| then None
    else
      assert s == s[..i] + [sep] + s[i + 1..];
      Some((s[..i], s[i + 1..]))
  }

  /** The split is determined by the first separator: the head never holds one, the tail may. */
  lemma SplitOnceAt(head: string, sep: char, tail: string)
    requires sep !in head
    ensures SplitOnce(head + [sep] + tail, sep) == Some((head, tail))
  {
    var s := head + [sep] + tail;
    var i := IndexOf(s, sep);
    assert s[|head|] == sep;
    assert s[..i] == head;
    assert s[i + 1..] == tail;
  }

  /** `s.replace(from, to)` for single characters. */
  function ReplaceChar(s: string, from: char, to: char): (r: string)
    ensures |r| == |s|
    ensures forall i :: 0 <= i < |s| && s[i] == from ==> r[i] == to
    ensures forall i :: 0 <= i < |s| && s[i] != from ==> r[i] == s[i]
  {
    if s == [] then []
    else [if s[0] == from then to else s[0]] + ReplaceChar(s[1..], from, to)
  }

  /** After the replacement no `from` is left, unless it is its own replacement. */
  lemma ReplaceCharRemoves(s: string, from: char, to: char)
    requires from != to
    ensures from !in ReplaceChar(s, from, to)
  {
    var r := ReplaceChar(s, from, to);
    assert forall i :: 0 <= i < |r| ==> r[i] != from;
  }

  /** With nothing to replace, the text is unchanged. */
  lemma ReplaceCharAbsent(s: string, from: char, to: char)
    requires from !in s
    ensures ReplaceChar(s, from, to) == s
  {
  }

  /** `c.upper()` restricted to ASCII. */
  function UpperChar(c: char): char
  {
    if 'a' <= c <= 'z' then (c as int - 32) as char else c
  }

  /** `s.upper()`, character by character, ASCII only. */
  function Upper(s: string): (r: string)
    ensures |r| == |s|
    ensures forall i :: 0 <= i < |s| ==> r[i] == UpperChar(s[i])
    ensures forall i :: 0 <= i < |r| ==> !('a' <= r[i] <= 'z')
  {
    if s == [] then [] else [UpperChar(s[0])] + Upper(s[1..])
  }

  /** `p in s` on strings: `p` occurs in `s` at some position. */
  predicate IsSubstring(p: string, s: string)
  {
    p <= s || (s != [] && IsSubstring(p, s[1..]))
  }

  /** Whatever surrounds it, `p` is found. */
  lemma {:induction false} IsSubstringAt(a: string, p: string, b: string)
    ensures IsSubstring(p, a + p + b)
  {
    if a == [] {
      assert p <= a + p + b;
    } else {
      IsSubstringAt(a[1..], p, b);
      assert (a + p + b)[1..] == a[1..] + p + b;
    }
  }

  /** Number of leading characters of `s` that `strip` removes. */
  function Lead(s: string, chars: set<char>): (n: nat)
    ensures n <= |s|
    ensures forall k :: 0 <= k < n ==> s[k] in chars
    ensures n < |s| ==> s[n] !in chars
  {
    if s != [] && s[0] in chars then 1 + Lead(s[1..], chars) else 0
  }

  /** Number of trailing characters of `s` that `strip` removes. */
  function Trail(s: string, chars: set<char>): (n: nat)
    ensures n <= |s|
    ensures forall k :: |s| - n <= k < |s| ==> s[k] in chars
    ensures n < |s| ==> s[|s| - 1 - n] !in chars
  {
    if s != [] && s[|s| - 1] in chars then 1 + Trail(s[..|s| - 1], chars) else 0
  }

  /**
   * `s.strip(chars)`: removes every leading and every trailing character that
   * belongs to the SET `chars`. This is not the removal of a prefix string.
   */
  function Strip(s: string, chars: set<char>): (r: string)
    ensures Lead(s, chars) + |r| <= |s|
    ensures r == s[Lead(s, chars)..Lead(s, chars) + |r|]
    ensures forall k :: 0 <= k < Lead(s, chars) ==> s[k] in chars
    ensures forall k :: Lead(s, chars) + |r| <= k < |s| ==> s[k] in chars
    ensures r != [] ==> r[0] !in chars && r[|r| - 1] !in chars
  {
    var left := s[Lead(s, chars)..];
    left[..|left| - Trail(left, chars)]
  }

  /** `sep.join(xs)`. */
  function Join(xs: seq<string>, sep: char): string
  {
    if xs == [] then ""
    else if |xs| == 1 then xs[0]
    else xs[0] + [sep] + Join(xs[1..], sep)
  }

  /** `s.split(sep)`: the pieces between separators, always at least one. */
  function SplitAll(s: string, sep: char): (r: seq<string>)
    ensures |r| >= 1
    ensures forall i :: 0 <= i < |r| ==> sep !in r[i]
    decreases |s|
  {
    match SplitOnce(s, sep)
    case None => [s]
    case Some((head, tail)) => [head] + SplitAll(tail, sep)
  }

  /** Joining pieces free of the separator and splitting again gives the pieces back. */
  lemma {:induction false} SplitAllJoin(xs: seq<string>, sep: char)
    requires |xs| >= 1
    requires forall i :: 0 <= i < |xs| ==> sep !in xs[i]
    ensures SplitAll(Join(xs, sep), sep) == xs
  {
    if |xs| == 1 {
      assert SplitOnce(xs[0], sep) == None;
    } else {
      assert sep !in xs[0];
      SplitOnceAt(xs[0], sep, Join(xs[1..], sep));
      SplitAllJoin(xs[1..], sep);
      assert [xs[0]] + xs[1..] == xs;
    }
  }
}
