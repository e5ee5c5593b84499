/// `printRepos`: the names of the organization's repositories, sorted with
/// `sort.Strings` and joined one per line.
module Repos {
  import opened GitHub
  import opened Text

  /// The names of `repos`, in listing order.
  function Names(repos: seq<Repository>): (r: seq<string>)
    ensures |r| == |repos| && forall i :: 0 <= i < |repos| ==> r[i] == repos[i].name
    decreases |repos|
  {
    if repos == [] then [] else [repos[0].name] + Names(repos[1..])
  }

  /// `sort.Strings`: sort `a` in place into ascending byte order. Go uses a
  /// different algorithm; `SortedUnique` shows the outcome is the same.
  method SortStrings(a: array<string>)
    modifies a
    ensures Sorted(a[..]) && multiset(a[..]) == multiset(old(a[..]))
  {
    for i := 0 to a.Length
      invariant Sorted(a[..i]) && multiset(a[..]) == multiset(old(a[..]))
    {
      Insert(a, i);
    }
  }

  /// Move `a[i]` down past the larger texts before it, so that `a[..i + 1]`
  /// becomes sorted.
  method Insert(a: array<string>, i: int)
    requires 0 <= i < a.Length && Sorted(a[..i])
    modifies a
    ensures Sorted(a[..i + 1]) && multiset(a[..]) == multiset(old(a[..]))
    ensures a[i + 1..] == old(a[i + 1..])
    ensures multiset(a[..i + 1]) == multiset(old(a[..i + 1]))
  {
    var j := i;
    assert Placing(a[..], i, j);
    while j > 0 && Below(a[j], a[j - 1])
      invariant 0 <= j <= i && Placing(a[..], i, j)
      invariant a[i + 1..] == old(a[i + 1..])
      invariant multiset(a[..i + 1]) == multiset(old(a[..i + 1]))
    {
      ghost var before := a[..];
      a[j - 1], a[j] := a[j], a[j - 1];
      SwapInPrefix(before, a[..], i, j);
      PlacingStep(before, a[..], i, j);
      j := j - 1;
    }
    PlacingDone(a[..], i, j);
    assert a[..] == a[..i + 1] + a[i + 1..];
    assert old(a[..]) == old(a[..i + 1]) + old(a[i + 1..]);
  }

  /// While `Insert` moves the new text down to position `j`: the other
  /// texts of `s[..i + 1]` are in order, and the new one is at most every
  /// text after it.
  predicate Placing(s: seq<string>, i: int, j: int)
    requires 0 <= j <= i < |s|
  {
    && (forall k, l :: 0 <= k < l <= i && k != j && l != j ==> AtMost(s[k], s[l]))
    && (forall l :: j < l <= i ==> AtMost(s[j], s[l]))
  }

  /// Moving the new text one place down, past a larger one, keeps `Placing`.
  lemma PlacingStep(s: seq<string>, t: seq<string>, i: int, j: int)
    requires 0 < j <= i < |s| && Placing(s, i, j) && Below(s[j], s[j - 1])
    requires t == s[j - 1 := s[j]][j := s[j - 1]]
    ensures Placing(t, i, j - 1)
  {
    forall k, l | 0 <= k < l <= i && k != j - 1 && l != j - 1
      ensures AtMost(t[k], t[l])
    {
      if l == j {
        if k < j - 1 {
          assert AtMost(s[k], s[j - 1]);
        }
      }
    }
    forall l | j - 1 < l <= i
      ensures AtMost(t[j - 1], t[l])
    {
      if l == j {
        assert Below(t[j - 1], t[l]);
      }
    }
  }

  /// When the loop stops, the prefix is sorted.
  lemma PlacingDone(s: seq<string>, i: int, j: int)
    requires 0 <= j <= i < |s| && Placing(s, i, j)
    requires j > 0 ==> !Below(s[j], s[j - 1])
    ensures Sorted(s[..i + 1])
  {
    if j > 0 {
      BelowTotalAtMost(s[j - 1], s[j]);
      forall k | 0 <= k < j
        ensures AtMost(s[k], s[j])
      {
        if k < j - 1 {
          AtMostTransitive(s[k], s[j - 1], s[j]);
        }
      }
    }
  }

  /// Exchanging two neighbours inside `s[..i + 1]` keeps that prefix's
  /// texts and leaves the rest alone.
  lemma SwapInPrefix(s: seq<string>, t: seq<string>, i: int, j: int)
    requires 0 < j <= i < |s| && t == s[j - 1 := s[j]][j := s[j - 1]]
    ensures t[i + 1..] == s[i + 1..]
    ensures multiset(t[..i + 1]) == multiset(s[..i + 1])
  {
    assert t[..i + 1] == s[..i + 1][j - 1 := s[j]][j := s[j - 1]];
  }

  /// The order is total: a text that the other is not below is at most it.
  lemma BelowTotalAtMost(a: string, b: string)
    requires !Below(b, a)
    ensures AtMost(a, b)
  {
    if a != b {
      BelowTotal(a, b);
    }
  }

  /// `printRepos`: the names of `repos` in ascending order, and the text it
  /// logs, those names joined one per line.
  method PrintRepos(repos: seq<Repository>) returns (names: seq<string>, content: string)
    ensures Sorted(names) && multiset(names) == multiset(Names(repos))
    ensures content == Join(names, '\n')
  {
    var a := new string[|repos|];
    for i := 0 to |repos|
      invariant a[..i] == Names(repos)[..i]
    {
      a[i] := repos[i].name;
    }
    assert a[..] == Names(repos);
    SortStrings(a);
    names := a[..];
    content := Join(names, '\n');
  }

  /// A non-empty listing whose names hold no newline reads back, line by
  /// line, as the sorted names; `printRepos` logs nothing else.
  lemma PrintReposLines(repos: seq<Repository>, names: seq<string>)
    requires Sorted(names) && multiset(names) == multiset(Names(repos))
    requires repos != [] && forall i :: 0 <= i < |repos| ==> '\n' !in repos[i].name
    ensures Split(Join(names, '\n'), '\n') == names
  {
    assert |names| == |multiset(names)| == |Names(repos)|;
    forall i | 0 <= i < |names|
      ensures '\n' !in names[i]
    {
      assert names[i] in multiset(Names(repos));
    }
    SplitJoin(names, '\n');
  }
}
