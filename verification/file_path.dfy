/**
  `filepath.Base` of Go's `path/filepath` package on a system whose only
  separator is '/' and whose paths carry no volume name.
 */
module FilePath {
  import opened GoStrings

  const Separator: char := '/'

  predicate AllSeparators(s: string) {
    forall k :: 0 <= k < |s| ==> s[k] == Separator
  }

  /** `p` without its trailing run of separators. */
  function TrimTrailingSeparators(p: string): (r: string)
    ensures r <= p
    ensures AllSeparators(p[|r|..])
    ensures r == [] || r[|r| - 1] != Separator
    decreases |p|
  {
    if p != [] && p[|p| - 1] == Separator then TrimTrailingSeparators(p[..|p| - 1])
    else p
  }

  /** Trimming `q + trail` gives `q` back when `q` does not end in a separator
      and `trail` is nothing but separators. */
  lemma {:induction false} TrimSeparatorRun(q: string, trail: string)
    requires q == [] || q[|q| - 1] != Separator
    requires AllSeparators(trail)
    ensures TrimTrailingSeparators(q + trail) == q
    decreases |trail|
  {
    if trail == [] {
      assert q + trail == q;
    } else {
      var p := q + trail;
      assert p[|p| - 1] == trail[|trail| - 1];
      assert p[..|p| - 1] == q + trail[..|trail| - 1];
      TrimSeparatorRun(q, trail[..|trail| - 1]);
    }
  }

  /** The last element of `path`: "." for the empty path, "/" for a path of
      separators only, and otherwise the text after the last separator once
      trailing separators are dropped. */
  function Base(path: string): (r: string)
    ensures r != []
    ensures path == [] ==> r == "."
    ensures path != [] && AllSeparators(path) ==> r == [Separator]
    ensures !AllSeparators(path) ==> Separator !in r
  {
    if path == [] then "."
    else
      var p := TrimTrailingSeparators(path);
      var tail := p[AfterLast(p, Separator)..];
      assert p == [] ==> AllSeparators(path) by {
        if p == [] {
          assert path[|p|..] == path;
        }
      }
      assert p != [] ==> tail != [];
      if tail == [] then [Separator] else tail
  }

  /** `path` is `dir + name + trail`, where `dir` is empty or ends in a
      separator, `name` is a non-empty element, and `trail` is separators. */
  predicate SplitsAs(path: string, dir: string, name: string, trail: string) {
    && path == dir + name + trail
    && (dir == [] || dir[|dir| - 1] == Separator)
    && name != [] && Separator !in name
    && AllSeparators(trail)
  }

  /** Whatever directory precedes it and however many separators follow it,
      the last element is what `Base` returns. */
  lemma BaseOfSplit(dir: string, name: string, trail: string)
    requires SplitsAs(dir + name + trail, dir, name, trail)
    ensures Base(dir + name + trail) == name
  {
    var path, q := dir + name + trail, dir + name;
    assert path == q + trail;
    assert q[|q| - 1] == name[|name| - 1];
    TrimSeparatorRun(q, trail);
    if dir == [] {
      assert q == name;
      AfterLastNone(name, Separator);
    } else {
      var d := dir[..|dir| - 1];
      assert q == d + [Separator] + name;
      AfterLastAt(d, name, Separator);
    }
    assert AfterLast(q, Separator) == |dir|;
    assert q[|dir|..] == name;
  }

  /** Every path with an element in it splits around what `Base` returns. */
  lemma BaseIsLastElement(path: string)
    requires !AllSeparators(path)
    ensures exists dir, trail :: SplitsAs(path, dir, Base(path), trail)
  {
    var p := TrimTrailingSeparators(path);
    assert path[0..] == path;
    var i := AfterLast(p, Separator);
    var dir, name, trail := p[..i], p[i..], path[|p|..];
    assert path == dir + name + trail;
    assert name != [] && name[|name| - 1] == p[|p| - 1];
    assert SplitsAs(path, dir, Base(path), trail);
  }
}
