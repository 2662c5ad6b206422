/** String and sequence helpers standing for the Python built-ins the engine relies on:
    `str.strip()`, `str.lower()`, `str.replace(c, '')`, and a list filter. */
module Text {

  /** The characters Python's `str.isspace` accepts, which `str.strip()` removes. */
  predicate IsSpace(c: char) {
    || c == ' ' || c == '\t' || c == '\n' || c == '\r' || c == '\U{0B}' || c == '\U{0C}'
    || ('\U{1C}' <= c <= '\U{1F}')
    || c == '\U{85}' || c == '\U{A0}' || c == '\U{1680}'
    || ('\U{2000}' <= c <= '\U{200A}')
    || c == '\U{2028}' || c == '\U{2029}' || c == '\U{202F}' || c == '\U{205F}' || c == '\U{3000}'
  }

  /** Number of whitespace characters at the front of `s`. */
  function LeadingSpaces(s: string): (n: nat)
    ensures n <= |s|
    ensures forall i :: 0 <= i < n ==> IsSpace(s[i])
    ensures n < |s| ==> !IsSpace(s[n])
  {
    if s != [] && IsSpace(s[0]) then 1 + LeadingSpaces(s[1..]) else 0
  }

  /** Number of whitespace characters at the back of `s`. */
  function TrailingSpaces(s: string): (n: nat)
    ensures n <= |s|
    ensures forall i :: |s| - n <= i < |s| ==> IsSpace(s[i])
    ensures n < |s| ==> !IsSpace(s[|s| - 1 - n])
  {
    if s != [] && IsSpace(s[|s| - 1]) then 1 + TrailingSpaces(s[..|s| - 1]) else 0
  }

  /** Python's `s.strip()`: `s` without its leading and trailing whitespace. */
  function Strip(s: string): (r: string)
    ensures |r| <= |s|
    ensures r != [] ==> !IsSpace(r[0]) && !IsSpace(r[|r| - 1])
  {
    var t := s[LeadingSpaces(s)..];
    t[..|t| - TrailingSpaces(t)]
  }

  /** `Strip` removes whitespace only: the result is the slice of `s` that starts after the
      leading whitespace, and everything outside that slice is whitespace. */
  lemma StripIsSlice(s: string)
    ensures var i := LeadingSpaces(s); var r := Strip(s);
      && i + |r| <= |s|
      && r == s[i..i + |r|]
      && (forall k :: 0 <= k < i ==> IsSpace(s[k]))
      && (forall k :: i + |r| <= k < |s| ==> IsSpace(s[k]))
  {
    var i := LeadingSpaces(s);
    var t := s[i..];
    var j := TrailingSpaces(t);
    forall k | i + |Strip(s)| <= k < |s|
      ensures IsSpace(s[k])
    {
      assert s[k] == t[k - i];
    }
  }

  /** A string without whitespace at either end is its own strip. */
  lemma StripKeepsTrimmed(s: string)
    requires s != [] ==> !IsSpace(s[0]) && !IsSpace(s[|s| - 1])
    ensures Strip(s) == s
  {
    assert LeadingSpaces(s) == 0;
    assert s[0..] == s;
    if s != [] {
      assert TrailingSpaces(s) == 0;
    }
  }

  /** Stripping twice is stripping once. */
  lemma StripIdempotent(s: string)
    ensures Strip(Strip(s)) == Strip(s)
  {
    StripKeepsTrimmed(Strip(s));
  }

  /** ASCII lower-casing of one character. */
  function LowerChar(c: char): char {
    if 'A' <= c <= 'Z' then (c as int - 'A' as int + 'a' as int) as char else c
  }

  /** Python's `s.lower()`, for the ASCII letters. */
  function Lower(s: string): (r: string)
    ensures |r| == |s|
    ensures forall i :: 0 <= i < |s| ==> r[i] == LowerChar(s[i])
    ensures forall i :: 0 <= i < |r| ==> !('A' <= r[i] <= 'Z')
  {
    if s == [] then [] else Lower(s[..|s| - 1]) + [LowerChar(s[|s| - 1])]
  }

  /** Positions, in increasing order, of the elements of `xs` that satisfy `p`: the index
      set of the sub-list a filtering loop keeps. */
  function Positions<T>(xs: seq<T>, p: T -> bool): (r: seq<nat>)
    ensures forall k :: 0 <= k < |r| ==> r[k] < |xs| && p(xs[r[k]])
    ensures forall k, l :: 0 <= k < l < |r| ==> r[k] < r[l]
    ensures forall i :: 0 <= i < |xs| && p(xs[i]) ==> i in r
  {
    if xs == [] then []
    else
      var n := |xs| - 1;
      var front := Positions(xs[..n], p);
      assert forall k :: 0 <= k < |front| ==> xs[..n][front[k]] == xs[front[k]];
      front + (if p(xs[n]) then [n] else [])
  }

  /** The elements of `xs` that satisfy `p`, in their original order. */
  function Filter<T>(xs: seq<T>, p: T -> bool): (r: seq<T>)
    ensures |r| <= |xs|
  {
    if xs == [] then []
    else
      var n := |xs| - 1;
      Filter(xs[..n], p) + (if p(xs[n]) then [xs[n]] else [])
  }

  /** The k-th element a filter keeps is the element at the k-th satisfying position, and
      nothing else is kept. */
  lemma {:induction false} FilterAtPositions<T>(xs: seq<T>, p: T -> bool)
    ensures |Filter(xs, p)| == |Positions(xs, p)|
    ensures forall k :: 0 <= k < |Filter(xs, p)| ==> Filter(xs, p)[k] == xs[Positions(xs, p)[k]]
  {
    if xs != [] {
      var n := |xs| - 1;
      var init := xs[..n];
      FilterAtPositions(init, p);
      var front := Filter(init, p);
      var kept := Positions(init, p);
      var r := Filter(xs, p);
      assert r == front + (if p(xs[n]) then [xs[n]] else []);
      assert Positions(xs, p) == kept + (if p(xs[n]) then [n] else []);
      forall k | 0 <= k < |r| ensures r[k] == xs[Positions(xs, p)[k]] {
        if k < |front| {
          assert r[k] == front[k] == init[kept[k]];
        }
      }
    }
  }

  function Other(c: char): char -> bool {
    x => x != c
  }

  /** Python's `s.replace(c, '')`: the characters of `s` other than `c`, in order. */
  function Without(s: string, c: char): (r: string)
    ensures |r| == |Positions(s, Other(c))|
    ensures forall k :: 0 <= k < |r| ==> r[k] == s[Positions(s, Other(c))[k]]
    ensures c !in r
    ensures forall x :: x != c ==> (x in r <==> x in s)
    ensures c !in s ==> r == s
  {
    FilterAtPositions(s, Other(c));
    FilterKeepsAll(s, Other(c));
    Filter(s, Other(c))
  }

  /** When every element satisfies `p`, filtering keeps the whole list. */
  lemma {:induction false} FilterKeepsAll<T>(xs: seq<T>, p: T -> bool)
    ensures (forall i :: 0 <= i < |xs| ==> p(xs[i])) ==> Filter(xs, p) == xs
  {
    if xs != [] && forall i :: 0 <= i < |xs| ==> p(xs[i]) {
      var n := |xs| - 1;
      assert forall i :: 0 <= i < n ==> p(xs[..n][i]) by {
        assert forall i :: 0 <= i < n ==> xs[..n][i] == xs[i];
      }
      FilterKeepsAll(xs[..n], p);
      assert Filter(xs, p) == xs[..n] + [xs[n]];
      assert xs == xs[..n] + [xs[n]];
    }
  }
}
