/**
  The routines of Go's `strings` package that the logger relies on, for a
  separator of one character: `Count`, `Index`, `LastIndex` and `Split`,
  together with `Join`, the inverse of `Split`.
 */
module GoStrings {

  /** Number of occurrences of `c` in `s`. */
  function Count(s: string, c: char): (n: nat)
    ensures n <= |s|
    ensures n == 0 <==> c !in s
  {
    if s == [] then 0
    else (if s[0] == c then 1 else 0) + Count(s[1..], c)
  }

  lemma {:induction false} CountAppend(a: string, b: string, c: char)
    ensures Count(a + b, c) == Count(a, c) + Count(b, c)
  {
    if a == [] {
      assert a + b == b;
    } else {
      assert (a + b)[1..] == a[1..] + b;
      CountAppend(a[1..], b, c);
    }
  }

  /** Position of the first `c` in `s`; `|s|` when there is none
      (where Go's `strings.Index` answers -1). */
  function FirstIndex(s: string, c: char): (i: nat)
    ensures i <= |s|
    ensures c !in s[..i]
    ensures i < |s| ==> s[i] == c
  {
    if s == [] || s[0] == c then 0
    else
      var j := FirstIndex(s[1..], c);
      assert s[..1 + j] == [s[0]] + s[1..][..j];
      1 + j
  }

  /** Position just after the last `c` in `s`; 0 when there is none
      (Go's `strings.LastIndex` plus one). */
  function AfterLast(s: string, c: char): (i: nat)
    ensures i <= |s|
    ensures c !in s[i..]
    ensures 0 < i ==> s[i - 1] == c
  {
    if s == [] then 0
    else if s[|s| - 1] == c then |s|
    else
      var i := AfterLast(s[..|s| - 1], c);
      assert s[i..] == s[..|s| - 1][i..] + [s[|s| - 1]];
      i
  }

  /** The first `c` of `a + [c] + b` is the one after `a` when `a` has none. */
  lemma FirstIndexAt(a: string, b: string, c: char)
    requires c !in a
    ensures FirstIndex(a + [c] + b, c) == |a|
  {
    var s := a + [c] + b;
    assert s[..|a|] == a;
    assert s[|a|] == c;
  }

  /** The last `c` of `a + [c] + b` is the one before `b` when `b` has none. */
  lemma AfterLastAt(a: string, b: string, c: char)
    requires c !in b
    ensures AfterLast(a + [c] + b, c) == |a| + 1
  {
    var s := a + [c] + b;
    assert s[|a| + 1..] == b;
    assert s[|a|] == c;
  }

  /** `a`, the character `x`, `b`, the character `y`, then `c`. */
  function Concat3(a: string, x: char, b: string, y: char, c: string): string {
    a + [x] + b + [y] + c
  }

  /** Where the parts of a `Concat3` lie. */
  lemma Concat3Fields(a: string, x: char, b: string, y: char, c: string)
    ensures var s := Concat3(a, x, b, y, c);
      && |s| == |a| + |b| + |c| + 2
      && s[..|a|] == a && s[|a|] == x
      && s[|a| + 1..|a| + 1 + |b|] == b && s[|a| + 1 + |b|] == y
      && s[|a| + |b| + 2..] == c
  {
  }

  /** Without any `c` in `s`, the search runs to the end. */
  lemma FirstIndexNone(s: string, c: char)
    requires c !in s
    ensures FirstIndex(s, c) == |s|
  {
  }

  /** Without any `c` in `s`, there is nothing to skip. */
  lemma AfterLastNone(s: string, c: char)
    requires c !in s
    ensures AfterLast(s, c) == 0
  {
  }

  /** The pieces of `parts` with `sep` between neighbours (`strings.Join`). */
  function Join(parts: seq<string>, sep: char): string
    requires parts != []
  {
    if |parts| == 1 then parts[0]
    else parts[0] + [sep] + Join(parts[1..], sep)
  }

  /** `strings.Split(s, sep)`: the maximal pieces of `s` between occurrences of
      `sep`. There is always one more piece than there are separators, so the
      empty string splits into the single piece "". */
  function Split(s: string, sep: char): (parts: seq<string>)
    ensures |parts| == Count(s, sep) + 1
    ensures forall k :: 0 <= k < |parts| ==> sep !in parts[k]
    ensures Join(parts, sep) == s
    decreases |s|
  {
    var i := FirstIndex(s, sep);
    if i == |s| then
      assert s[..i] == s;
      [s]
    else
      assert s == s[..i] + [sep] + s[i + 1..];
      CountAppend(s[..i] + [sep], s[i + 1..], sep);
      CountAppend(s[..i], [sep], sep);
      [s[..i]] + Split(s[i + 1..], sep)
  }

  /** Splitting a join of separator-free pieces gives the pieces back. */
  lemma {:induction false} SplitJoin(parts: seq<string>, sep: char)
    requires parts != []
    requires forall k :: 0 <= k < |parts| ==> sep !in parts[k]
    ensures Split(Join(parts, sep), sep) == parts
    decreases |parts|
  {
    if |parts| == 1 {
      FirstIndexNone(parts[0], sep);
      assert parts[0][..|parts[0]|] == parts[0];
    } else {
      var first, rest := parts[0], Join(parts[1..], sep);
      var s := first + [sep] + rest;
      assert Join(parts, sep) == s;
      FirstIndexAt(first, rest, sep);
      assert s[..|first|] == first;
      assert s[|first| + 1..] == rest;
      SplitJoin(parts[1..], sep);
      assert Split(s, sep) == [first] + parts[1..];
    }
  }
}
