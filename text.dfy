/** The `str` methods the diff helpers use: `s.split(' ')`, `sep.join(parts)`
    and `s.splitlines()`. */
module Text {

  /** `s.split(c)` for a one-character separator: the pieces between the
      occurrences of `c`, empty pieces included; `''.split(c)` is `['']`. */
  function Split(s: string, c: char): (r: seq<string>)
    ensures |r| >= 1
    ensures forall k :: 0 <= k < |r| ==> c !in r[k]
    decreases |s|
  {
    if s == [] then [""]
    else
      var rest := Split(s[1..], c);
      if s[0] == c then [""] + rest
      else
        assert c !in rest[0];
        [[s[0]] + rest[0]] + rest[1..]
  }

  /** `sep.join(parts)`. */
  function Join(parts: seq<string>, sep: string): string
    decreases |parts|
  {
    if parts == [] then ""
    else if |parts| == 1 then parts[0]
    else parts[0] + sep + Join(parts[1..], sep)
  }

  /** Joining the pieces with the separator gives back the string. */
  lemma {:induction false} JoinSplit(s: string, c: char)
    ensures Join(Split(s, c), [c]) == s
    decreases |s|
  {
    if s != [] {
      var rest := Split(s[1..], c);
      JoinSplit(s[1..], c);
      assert Join(rest, [c]) == s[1..];
      if s[0] == c {
        assert Split(s, c) == [""] + rest;
        assert ([""] + rest)[1..] == rest;
        assert s == [c] + s[1..];
      } else {
        var pieces := [[s[0]] + rest[0]] + rest[1..];
        assert Split(s, c) == pieces;
        assert pieces[1..] == rest[1..];
        if |rest| == 1 {
          assert s == [s[0]] + rest[0];
        } else {
          assert Join(rest, [c]) == rest[0] + [c] + Join(rest[1..], [c]);
          assert s == [s[0]] + s[1..];
        }
      }
    }
  }

  /** A line boundary for `str.splitlines`. */
  predicate IsLineBreak(c: char)
  {
    c == '\n' || c == '\r' || c == '\U{B}' || c == '\U{C}' || c == '\U{1C}' || c == '\U{1D}'
    || c == '\U{1E}' || c == '\U{85}' || c == '\U{2028}' || c == '\U{2029}'
  }

  /** The index of the first line boundary in `s`, or `|s|`. */
  function LineEnd(s: string): (n: nat)
    ensures n <= |s| && (n < |s| ==> IsLineBreak(s[n]))
    ensures forall k :: 0 <= k < n ==> !IsLineBreak(s[k])
    decreases |s|
  {
    if s == [] || IsLineBreak(s[0]) then 0 else 1 + LineEnd(s[1..])
  }

  /** `s.splitlines()`: the lines without their boundaries, `\r\n` being one
      boundary; a boundary at the very end starts no further line. */
  function SplitLines(s: string): (r: seq<string>)
    ensures forall k, p :: 0 <= k < |r| && 0 <= p < |r[k]| ==> !IsLineBreak(r[k][p])
    decreases |s|
  {
    if s == [] then []
    else
      var n := LineEnd(s);
      if n == |s| then [s]
      else
        [s[..n]] + SplitLines(s[n + BreakLength(s, n)..])
  }

  /** The length of the boundary at `s[n]`: two for `\r\n`, else one. */
  function BreakLength(s: string, n: nat): (k: nat)
    requires n < |s|
    ensures 1 <= k <= 2 && n + k <= |s|
  {
    if s[n] == '\r' && n + 1 < |s| && s[n + 1] == '\n' then 2 else 1
  }

  /** `s` without its line boundary characters. */
  function Unbroken(s: string): string
    decreases |s|
  {
    if s == [] then "" else (if IsLineBreak(s[0]) then "" else [s[0]]) + Unbroken(s[1..])
  }

  function Concat(lines: seq<string>): string
    decreases |lines|
  {
    if lines == [] then "" else lines[0] + Concat(lines[1..])
  }

  lemma {:induction false} UnbrokenPlain(x: string)
    requires forall k :: 0 <= k < |x| ==> !IsLineBreak(x[k])
    ensures Unbroken(x) == x
    decreases |x|
  {
    if x != [] {
      UnbrokenPlain(x[1..]);
    }
  }

  /** The one or two characters of a boundary are all line breaks. */
  lemma BreakChars(s: string, n: nat)
    requires n < |s| && IsLineBreak(s[n])
    ensures forall k :: n <= k < n + BreakLength(s, n) ==> IsLineBreak(s[k])
  {
    if BreakLength(s, n) == 2 {
      assert s[n + 1] == '\n';
    }
  }

  /** Plain characters up to `i`, then only boundaries up to `j`: dropping the
      boundaries keeps the prefix and goes on at `j`. */
  lemma {:induction false} UnbrokenSkip(s: string, i: nat, j: nat)
    requires i <= j <= |s|
    requires forall k :: 0 <= k < i ==> !IsLineBreak(s[k])
    requires forall k :: i <= k < j ==> IsLineBreak(s[k])
    ensures Unbroken(s) == s[..i] + Unbroken(s[j..])
    decreases j
  {
    if j == 0 {
      assert s[..0] + Unbroken(s[0..]) == Unbroken(s);
    } else {
      var t := s[1..];
      assert forall k :: 0 <= k < |t| ==> t[k] == s[k + 1];
      assert t[j - 1..] == s[j..];
      if i == 0 {
        UnbrokenSkip(t, 0, j - 1);
        assert t[..0] == "" && s[..0] == "";
      } else {
        UnbrokenSkip(t, i - 1, j - 1);
        assert s[..i] == [s[0]] + t[..i - 1];
      }
    }
  }

  /** The lines hold every character of `s` but the boundaries, in order. */
  lemma {:induction false} SplitLinesContent(s: string)
    ensures Concat(SplitLines(s)) == Unbroken(s)
    decreases |s|
  {
    if s != [] {
      var n := LineEnd(s);
      if n == |s| {
        UnbrokenPlain(s);
        assert Concat([s]) == s + Concat([]);
      } else {
        var rest := s[n + BreakLength(s, n)..];
        SplitLinesContent(rest);
        BreakChars(s, n);
        UnbrokenSkip(s, n, n + BreakLength(s, n));
        var lines := [s[..n]] + SplitLines(rest);
        assert lines[0] == s[..n] && lines[1..] == SplitLines(rest);
      }
    }
  }

  /** The number of line boundaries in `s`, scanning left to right and
      counting `\r\n` once. */
  function Breaks(s: string): nat
    decreases |s|
  {
    if s == [] then 0
    else if |s| >= 2 && s[0] == '\r' && s[1] == '\n' then 1 + Breaks(s[2..])
    else if IsLineBreak(s[0]) then 1 + Breaks(s[1..])
    else Breaks(s[1..])
  }

  /** Characters before the first boundary add no boundary. */
  lemma {:induction false} BreaksSkipPlain(s: string, n: nat)
    requires n <= |s|
    requires forall k :: 0 <= k < n ==> !IsLineBreak(s[k])
    ensures Breaks(s) == Breaks(s[n..])
    decreases n
  {
    if n > 0 {
      assert s[1..][n - 1..] == s[n..];
      BreaksSkipPlain(s[1..], n - 1);
    }
  }

  /** A boundary at `n` counts once, whichever of its forms it takes. */
  lemma BreaksAtBoundary(s: string, n: nat)
    requires n < |s| && IsLineBreak(s[n])
    ensures Breaks(s[n..]) == 1 + Breaks(s[n + BreakLength(s, n)..])
  {
    var t := s[n..];
    assert t[0] == s[n];
    if BreakLength(s, n) == 2 {
      assert t[1] == '\n' && t[2..] == s[n + 2..];
    } else {
      assert t[1..] == s[n + 1..];
      assert |t| >= 2 ==> t[1] == s[n + 1];
    }
  }

  /** One line per boundary, plus one for text after the last boundary: a
      boundary at the very end adds no empty line, and the empty text has
      no lines. */
  lemma {:induction false} SplitLinesCount(s: string)
    ensures |SplitLines(s)| == Breaks(s) + (if s != [] && !IsLineBreak(s[|s| - 1]) then 1 else 0)
    decreases |s|
  {
    if s != [] {
      var n := LineEnd(s);
      BreaksSkipPlain(s, n);
      if n == |s| {
        assert s[n..] == [];
      } else {
        var rest := s[n + BreakLength(s, n)..];
        assert |SplitLines(s)| == 1 + |SplitLines(rest)|;
        SplitLinesCount(rest);
        BreaksAtBoundary(s, n);
        BreakChars(s, n);
        if rest != [] {
          assert rest[|rest| - 1] == s[|s| - 1];
        } else {
          assert IsLineBreak(s[|s| - 1]);
        }
      }
    }
  }
}
