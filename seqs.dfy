/** Selecting elements of a sequence by a parallel sequence of flags, concatenating over a sequence, and the facts both rely on. */
module Sequences {

  /** How many flags are set: Python's `sum` over booleans. */
  function CountTrue(flags: seq<bool>): nat {
    if flags == [] then 0 else CountTrue(flags[..|flags| - 1]) + (if flags[|flags| - 1] then 1 else 0)
  }

  /** The elements of `keys` whose flag is set, in order: `[k for k, v in zip(keys, flags) if v]`. */
  function Filter<T>(keys: seq<T>, flags: seq<bool>): seq<T>
    requires |keys| == |flags|
  {
    if keys == [] then []
    else Filter(keys[..|keys| - 1], flags[..|flags| - 1]) + (if flags[|flags| - 1] then [keys[|keys| - 1]] else [])
  }

  /** `a` is `b` with some elements left out, the rest in their order. */
  predicate IsSubsequence<T(==)>(a: seq<T>, b: seq<T>)
    decreases |b|
  {
    if a == [] then true
    else if b == [] then false
    else (a[|a| - 1] == b[|b| - 1] && IsSubsequence(a[..|a| - 1], b[..|b| - 1])) || IsSubsequence(a, b[..|b| - 1])
  }

  /** The concatenation of `f` over the elements of `s`, in order. */
  function FlatMap<T, U>(f: T -> seq<U>, s: seq<T>): seq<U> {
    if s == [] then [] else FlatMap(f, s[..|s| - 1]) + f(s[|s| - 1])
  }

  lemma FlatMapSnoc<T, U>(f: T -> seq<U>, s: seq<T>, x: T)
    ensures FlatMap(f, s + [x]) == FlatMap(f, s) + f(x)
  {
    assert (s + [x])[..|s|] == s;
  }

  /** Mapping over `a + b` maps over `a`, then over `b`. */
  lemma {:induction false} FlatMapAppend<T, U>(f: T -> seq<U>, a: seq<T>, b: seq<T>)
    ensures FlatMap(f, a + b) == FlatMap(f, a) + FlatMap(f, b)
    decreases |b|
  {
    if b == [] {
      assert a + b == a;
    } else {
      var c, x := b[..|b| - 1], b[|b| - 1];
      assert a + b == (a + c) + [x];
      assert b == c + [x];
      FlatMapSnoc(f, a + c, x);
      FlatMapSnoc(f, c, x);
      FlatMapAppend(f, a, c);
    }
  }

  /** No element occurs twice. */
  predicate Distinct<T(==)>(s: seq<T>) {
    forall i, j | 0 <= i < j < |s| :: s[i] != s[j]
  }

  lemma {:induction false} FilterMembers<T>(keys: seq<T>, flags: seq<bool>, x: T)
    requires |keys| == |flags|
    ensures x in Filter(keys, flags) <==> exists i :: 0 <= i < |keys| && keys[i] == x && flags[i]
  {
    if keys != [] {
      var n := |keys| - 1;
      FilterMembers(keys[..n], flags[..n], x);
      if x in Filter(keys, flags) && x !in Filter(keys[..n], flags[..n]) {
        assert keys[n] == x && flags[n];
      }
      if exists i :: 0 <= i < |keys| && keys[i] == x && flags[i] {
        var i :| 0 <= i < |keys| && keys[i] == x && flags[i];
        if i < n {
          assert keys[..n][i] == x && flags[..n][i];
        }
      }
    }
  }

  lemma {:induction false} FilterLength<T>(keys: seq<T>, flags: seq<bool>)
    requires |keys| == |flags|
    ensures |Filter(keys, flags)| == CountTrue(flags)
  {
    if keys != [] {
      FilterLength(keys[..|keys| - 1], flags[..|flags| - 1]);
    }
  }

  lemma {:induction false} SubsequenceExtend<T>(a: seq<T>, b: seq<T>, x: T)
    requires IsSubsequence(a, b)
    ensures IsSubsequence(a, b + [x])
    decreases |b|
  {
    var b' := b + [x];
    assert b'[..|b'| - 1] == b;
  }

  lemma {:induction false} FilterIsSubsequence<T>(keys: seq<T>, flags: seq<bool>)
    requires |keys| == |flags|
    ensures IsSubsequence(Filter(keys, flags), keys)
  {
    if keys != [] {
      var n := |keys| - 1;
      FilterIsSubsequence(keys[..n], flags[..n]);
      var rest := Filter(keys[..n], flags[..n]);
      if flags[n] {
        var f := rest + [keys[n]];
        assert f[..|f| - 1] == rest;
        assert keys[..n] + [keys[n]] == keys;
      } else {
        assert Filter(keys, flags) == rest;
        assert keys[..n] + [keys[n]] == keys;
        SubsequenceExtend(rest, keys[..n], keys[n]);
      }
    }
  }

  /** Selecting from a concatenation selects from each part. */
  lemma {:induction false} FilterAppend<T>(a: seq<T>, f: seq<bool>, b: seq<T>, g: seq<bool>)
    requires |a| == |f| && |b| == |g|
    ensures Filter(a + b, f + g) == Filter(a, f) + Filter(b, g)
    decreases |b|
  {
    if b == [] {
      assert a + b == a && f + g == f;
    } else {
      var n := |b| - 1;
      assert (a + b)[..|a + b| - 1] == a + b[..n];
      assert (f + g)[..|f + g| - 1] == f + g[..n];
      FilterAppend(a, f, b[..n], g[..n]);
    }
  }

  /** Selecting from two elements. */
  lemma FilterPair<T>(x: T, y: T, f: bool, g: bool)
    ensures Filter([x, y], [f, g]) == (if f then [x] else []) + (if g then [y] else [])
  {
    assert [x, y][..1] == [x] && [f, g][..1] == [f];
    assert [x][..0] == [] && [f][..0] == [];
    assert Filter([x], [f]) == Filter([], []) + (if f then [x] else []);
    assert Filter([x, y], [f, g]) == Filter([x], [f]) + (if g then [y] else []);
  }

  /** Selecting from three elements. */
  lemma FilterTriple<T>(x: T, y: T, z: T, f: bool, g: bool, h: bool)
    ensures Filter([x, y, z], [f, g, h]) == (if f then [x] else []) + (if g then [y] else []) + (if h then [z] else [])
  {
    assert [x, y, z][..2] == [x, y] && [f, g, h][..2] == [f, g];
    FilterPair(x, y, f, g);
  }

  /** Appending one more key and flag appends the key when its flag is set. */
  lemma FilterSnoc<T>(keys: seq<T>, flags: seq<bool>, k: T, f: bool)
    requires |keys| == |flags|
    ensures Filter(keys + [k], flags + [f]) == Filter(keys, flags) + (if f then [k] else [])
  {
    assert (keys + [k])[..|keys|] == keys;
    assert (flags + [f])[..|flags|] == flags;
  }

  lemma {:induction false} SubsequenceMembers<T>(a: seq<T>, b: seq<T>, x: T)
    requires IsSubsequence(a, b) && x in a
    ensures x in b
    decreases |b|
  {
    var n := |b| - 1;
    if a[|a| - 1] == b[n] && IsSubsequence(a[..|a| - 1], b[..n]) {
      if x != a[|a| - 1] {
        assert a == a[..|a| - 1] + [a[|a| - 1]];
        SubsequenceMembers(a[..|a| - 1], b[..n], x);
        assert b == b[..n] + [b[n]];
      }
    } else {
      SubsequenceMembers(a, b[..n], x);
      assert b == b[..n] + [b[n]];
    }
  }

  /** Leaving elements out of a sequence without repeats gives a sequence without repeats. */
  lemma {:induction false} SubsequenceDistinct<T>(a: seq<T>, b: seq<T>)
    requires IsSubsequence(a, b) && Distinct(b)
    ensures Distinct(a)
    decreases |b|
  {
    if a != [] {
      var n := |b| - 1;
      assert Distinct(b[..n]);
      if a[|a| - 1] == b[n] && IsSubsequence(a[..|a| - 1], b[..n]) {
        var front := a[..|a| - 1];
        SubsequenceDistinct(front, b[..n]);
        forall i | 0 <= i < |front| ensures front[i] != b[n] {
          SubsequenceMembers(front, b[..n], front[i]);
        }
      } else {
        SubsequenceDistinct(a, b[..n]);
      }
    }
  }
}
