/**
 * The few JavaScript string operations the generator relies on, stated over
 * `seq<char>`: `Array.prototype.join`, `String.prototype.indexOf`,
 * `String.prototype.replace` with a string pattern (first occurrence only) and
 * with a one-character global pattern, and splitting a text into lines.
 */
module Strings {
  import opened Wrappers

  /** `parts.join(sep)`: the parts in order with `sep` between neighbours. */
  function Join(parts: seq<string>, sep: string): string
  {
    if |parts| == 0 then ""
    else if |parts| == 1 then parts[0]
    else parts[0] + sep + Join(parts[1..], sep)
  }

  /** Joining two non-empty lists is joining each and putting one separator between them. */
  lemma {:induction false} JoinAppend(a: seq<string>, b: seq<string>, sep: string)
    requires |a| > 0 && |b| > 0
    ensures Join(a + b, sep) == Join(a, sep) + sep + Join(b, sep)
  {
    if |a| == 1 {
      assert a + b == [a[0]] + b;
      assert (a + b)[1..] == b;
    } else {
      assert (a + b)[1..] == a[1..] + b;
      JoinAppend(a[1..], b, sep);
    }
  }

  /** `sep` repeated `n` times. */
  function Repeat(sep: string, n: nat): (r: string)
    ensures |r| == n * |sep|
  {
    if n == 0 then "" else sep + Repeat(sep, n - 1)
  }

  /** Joining `n + 1` empty parts leaves exactly the `n` separators. */
  lemma {:induction false} JoinEmptyParts(parts: seq<string>, sep: string)
    requires |parts| > 0
    requires forall i :: 0 <= i < |parts| ==> parts[i] == ""
    ensures Join(parts, sep) == Repeat(sep, |parts| - 1)
  {
    if |parts| > 1 {
      JoinEmptyParts(parts[1..], sep);
    }
  }

  /** `pat` occurs in `s` starting at index `i`. */
  predicate OccursAt(s: string, pat: string, i: nat)
  {
    i + |pat| <= |s| && s[i..i + |pat|] == pat
  }

  /** `pat` occurs somewhere in `s`. */
  predicate Contains(s: string, pat: string)
  {
    exists i: nat :: i <= |s| && OccursAt(s, pat, i)
  }

  /** An occurrence stays an occurrence when text is added on either side. */
  lemma ContainsWithin(x: string, s: string, y: string, pat: string)
    requires Contains(s, pat)
    ensures Contains(x + s, pat) && Contains(s + y, pat)
  {
    var i: nat :| i <= |s| && OccursAt(s, pat, i);
    assert (x + s)[|x| + i..|x| + i + |pat|] == s[i..i + |pat|];
    assert OccursAt(x + s, pat, |x| + i);
    assert (s + y)[i..i + |pat|] == s[i..i + |pat|];
    assert OccursAt(s + y, pat, i);
  }

  /** A text occurs in any text that has it between two others. */
  lemma ContainsMiddle(x: string, pat: string, y: string)
    ensures Contains(x + pat + y, pat)
  {
    assert (x + pat + y)[|x|..|x| + |pat|] == pat;
    assert OccursAt(x + pat + y, pat, |x|);
  }

  /** The first index at or after `from` where `pat` occurs, if any. */
  function IndexOfFrom(s: string, pat: string, from: nat): (r: Option<nat>)
    requires from <= |s|
    ensures r.Some? ==> from <= r.value && OccursAt(s, pat, r.value)
    ensures r.Some? ==> forall j: nat :: from <= j < r.value ==> !OccursAt(s, pat, j)
    ensures r.None? ==> forall j: nat :: from <= j ==> !OccursAt(s, pat, j)
    decreases |s| - from
  {
    if OccursAt(s, pat, from) then Some(from)
    else if from == |s| then None
    else IndexOfFrom(s, pat, from + 1)
  }

  /** `s.indexOf(pat)`, with `None` for JavaScript's -1. */
  function IndexOf(s: string, pat: string): (r: Option<nat>)
    ensures r.Some? ==> OccursAt(s, pat, r.value)
    ensures r.Some? ==> forall j: nat :: j < r.value ==> !OccursAt(s, pat, j)
    ensures r.None? <==> !Contains(s, pat)
  {
    IndexOfFrom(s, pat, 0)
  }

  /** `s.replace(pat, rep)` with a string pattern: only the first occurrence is replaced. */
  function ReplaceFirst(s: string, pat: string, rep: string): string
  {
    match IndexOf(s, pat)
    case None => s
    case Some(i) => s[..i] + rep + s[i + |pat|..]
  }

  /**
   * Removing the first occurrence of `pat` can be undone: putting `pat` back
   * where the first occurrence was gives `s` again, and nothing before that
   * point held `pat`.  Without an occurrence the text is unchanged.
   */
  lemma RemoveFirstUndone(s: string, pat: string)
    ensures !Contains(s, pat) ==> ReplaceFirst(s, pat, "") == s
    ensures Contains(s, pat) ==>
      var r := ReplaceFirst(s, pat, "");
      var i := IndexOf(s, pat).value;
      |r| == |s| - |pat| && i <= |r| && s == r[..i] + pat + r[i..]
  {
    if Contains(s, pat) {
      var i := IndexOf(s, pat).value;
      var r := ReplaceFirst(s, pat, "");
      assert r == s[..i] + s[i + |pat|..];
      assert r[..i] == s[..i];
      assert r[i..] == s[i + |pat|..];
      assert s == s[..i] + s[i..i + |pat|] + s[i + |pat|..];
    }
  }

  /** `s.replace(/x/g, y)` for a one-character pattern: every `from` becomes `to`. */
  function ReplaceChar(s: string, from: char, to: char): (r: string)
    ensures |r| == |s|
    ensures forall i :: 0 <= i < |s| ==> r[i] == if s[i] == from then to else s[i]
  {
    if s == [] then []
    else [if s[0] == from then to else s[0]] + ReplaceChar(s[1..], from, to)
  }

  /** Where `s` held no `to`, replacing `to` back by `from` restores `s`. */
  lemma ReplaceCharInverse(s: string, from: char, to: char)
    requires to !in s
    ensures ReplaceChar(ReplaceChar(s, from, to), to, from) == s
  {
    var r := ReplaceChar(ReplaceChar(s, from, to), to, from);
    assert |r| == |s|;
    forall i | 0 <= i < |s|
      ensures r[i] == s[i]
    {
      assert s[i] != to;
    }
  }

  /** Replacing a character works piece by piece over a concatenation. */
  lemma ReplaceCharAppend(a: string, b: string, from: char, to: char)
    ensures ReplaceChar(a + b, from, to) == ReplaceChar(a, from, to) + ReplaceChar(b, from, to)
  {
    var r, e := ReplaceChar(a + b, from, to), ReplaceChar(a, from, to) + ReplaceChar(b, from, to);
    forall i | 0 <= i < |r|
      ensures r[i] == e[i]
    {
      if i < |a| {
        assert (a + b)[i] == a[i];
      } else {
        assert (a + b)[i] == b[i - |a|];
      }
    }
  }

  /** Index of the first line break in `s`, or `|s|` when there is none. */
  function LineEnd(s: string): (i: nat)
    ensures i <= |s|
    ensures i < |s| ==> s[i] == '\n'
    ensures forall j :: 0 <= j < i ==> s[j] != '\n'
  {
    if s == [] || s[0] == '\n' then 0 else 1 + LineEnd(s[1..])
  }

  /** Each line followed by a line break. */
  function Terminated(lines: seq<string>): string
  {
    if lines == [] then "" else lines[0] + "\n" + Terminated(lines[1..])
  }

  /** Terminating two lists of lines is terminating each of them in turn. */
  lemma {:induction false} TerminatedAppend(a: seq<string>, b: seq<string>)
    ensures Terminated(a + b) == Terminated(a) + Terminated(b)
  {
    if a == [] {
      assert a + b == b;
    } else {
      assert (a + b)[0] == a[0];
      assert (a + b)[1..] == a[1..] + b;
      TerminatedAppend(a[1..], b);
    }
  }

  /** The lines of a text, each ended by a line break (or by the end of the text). */
  function SplitLines(s: string): seq<string>
    decreases |s|
  {
    if s == [] then []
    else
      var i := LineEnd(s);
      if i == |s| then [s] else [s[..i]] + SplitLines(s[i + 1..])
  }

  /** Splitting undoes terminating, as long as no line holds a line break itself. */
  lemma {:induction false} SplitTerminated(lines: seq<string>)
    requires forall k :: 0 <= k < |lines| ==> '\n' !in lines[k]
    ensures SplitLines(Terminated(lines)) == lines
  {
    if lines != [] {
      var l, rest := lines[0], Terminated(lines[1..]);
      var s := l + "\n" + rest;
      assert Terminated(lines) == s;
      assert '\n' !in l;
      assert s[|l|] == '\n';
      assert LineEnd(s) == |l|;
      assert s[..|l|] == l;
      assert s[|l| + 1..] == rest;
      SplitTerminated(lines[1..]);
      assert lines == [l] + lines[1..];
    }
  }
}
