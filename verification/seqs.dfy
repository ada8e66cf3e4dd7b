/** Sequence helpers shared by the store fan-out and the work queue. */
module Seqs {

  /** No element occurs twice. */
  predicate NoDup<T(==)>(s: seq<T>) {
    forall i, j :: 0 <= i < j < |s| ==> s[i] != s[j]
  }

  /** `s` lists every element of `keys` exactly once: the shape of one
      `range` over a Go map's keys. */
  predicate Enumerates<T(==)>(s: seq<T>, keys: set<T>) {
    && NoDup(s)
    && (forall i :: 0 <= i < |s| ==> s[i] in keys)
    && (forall k :: k in keys ==> k in s)
  }

  /** Concatenation of `f(x)` for every `x` of `xs`, in order: the Go idiom
      `for _, x := range xs { out = append(out, f(x)...) }`. */
  function Flatten<A, B>(xs: seq<A>, f: A -> seq<B>): seq<B>
    decreases |xs|
  {
    if xs == [] then [] else f(xs[0]) + Flatten(xs[1..], f)
  }

  lemma ConsIndex<T>(a: T, s: seq<T>, j: int)
    requires 1 <= j <= |s|
    ensures ([a] + s)[j] == s[j - 1]
  {
  }

  lemma FlattenSingleton<A, B>(x: A, f: A -> seq<B>)
    ensures Flatten([x], f) == f(x)
  {
    assert [x][1..] == [];
  }

  lemma {:induction false} FlattenAppend<A, B>(xs: seq<A>, ys: seq<A>, f: A -> seq<B>)
    ensures Flatten(xs + ys, f) == Flatten(xs, f) + Flatten(ys, f)
    decreases |xs|
  {
    if xs == [] {
      assert xs + ys == ys;
    } else {
      assert (xs + ys)[1..] == xs[1..] + ys;
      FlattenAppend(xs[1..], ys, f);
    }
  }

  /** Two functions that agree on every part give the same concatenation. */
  lemma {:induction false} FlattenCongruent<A, B>(xs: seq<A>, f: A -> seq<B>, g: A -> seq<B>)
    requires forall i :: 0 <= i < |xs| ==> f(xs[i]) == g(xs[i])
    ensures Flatten(xs, f) == Flatten(xs, g)
    decreases |xs|
  {
    if xs != [] {
      assert forall i :: 0 <= i < |xs[1..]| ==> xs[1..][i] == xs[i + 1];
      FlattenCongruent(xs[1..], f, g);
    }
  }

  /** An element is in the concatenation iff it comes from one of the parts. */
  lemma {:induction false} FlattenMember<A, B>(xs: seq<A>, f: A -> seq<B>, b: B)
    ensures b in Flatten(xs, f) <==> exists i :: 0 <= i < |xs| && b in f(xs[i])
    decreases |xs|
  {
    if xs != [] {
      FlattenMember(xs[1..], f, b);
      if b in Flatten(xs[1..], f) {
        var i :| 0 <= i < |xs[1..]| && b in f(xs[1..][i]);
        assert b in f(xs[i + 1]);
      }
      if exists i :: 0 <= i < |xs| && b in f(xs[i]) {
        var i :| 0 <= i < |xs| && b in f(xs[i]);
        if i > 0 {
          assert b in f(xs[1..][i - 1]);
        }
      }
    }
  }

  /** Removing the element at `j` removes one copy of it from the multiset. */
  lemma MultisetRemoveAt<T>(s: seq<T>, j: int)
    requires 0 <= j < |s|
    ensures multiset(s[..j] + s[j + 1..]) == multiset(s) - multiset{s[j]}
  {
    assert s == s[..j] + [s[j]] + s[j + 1..];
  }

  /** The part contributed by `ys[j]` can be split off the concatenation. */
  lemma FlattenRemoveAt<A, B>(ys: seq<A>, j: int, f: A -> seq<B>)
    requires 0 <= j < |ys|
    ensures multiset(Flatten(ys, f)) == multiset(f(ys[j])) + multiset(Flatten(ys[..j] + ys[j + 1..], f))
  {
    var left, right := ys[..j], ys[j + 1..];
    assert ys == left + [ys[j]] + right;
    FlattenAppend(left + [ys[j]], right, f);
    FlattenAppend(left, [ys[j]], f);
    FlattenAppend(left, right, f);
    assert Flatten([ys[j]], f) == f(ys[j]);
  }

  /** Reordering the parts reorders the concatenation, nothing more. */
  lemma {:induction false} FlattenPermutation<A, B>(xs: seq<A>, ys: seq<A>, f: A -> seq<B>)
    requires multiset(xs) == multiset(ys)
    ensures multiset(Flatten(xs, f)) == multiset(Flatten(ys, f))
    decreases |xs|
  {
    if xs == [] {
      assert |ys| == |multiset(ys)| == 0;
    } else {
      var x := xs[0];
      assert x in multiset(xs);
      var j :| 0 <= j < |ys| && ys[j] == x;
      MultisetRemoveAt(xs, 0);
      MultisetRemoveAt(ys, j);
      assert xs[..0] + xs[1..] == xs[1..];
      FlattenPermutation(xs[1..], ys[..j] + ys[j + 1..], f);
      FlattenRemoveAt(ys, j, f);
      FlattenRemoveAt(xs, 0, f);
    }
  }

  /** In a duplicate-free sequence every element occurs once. */
  lemma {:induction false} NoDupCount<T>(s: seq<T>, x: T)
    requires NoDup(s)
    ensures multiset(s)[x] == if x in s then 1 else 0
    decreases |s|
  {
    if s != [] {
      assert s == [s[0]] + s[1..];
      assert NoDup(s[1..]);
      NoDupCount(s[1..], x);
      if x == s[0] {
        assert x !in s[1..];
      }
    }
  }

  /** Removing the element at `j` from an enumeration enumerates the other
      keys. */
  lemma DropEnumerates<T>(s: seq<T>, keys: set<T>, j: int)
    requires Enumerates(s, keys)
    requires 0 <= j < |s|
    ensures Enumerates(s[..j] + s[j + 1..], keys - {s[j]})
  {
    var rest := s[..j] + s[j + 1..];
    assert forall i :: 0 <= i < |rest| ==> rest[i] == if i < j then s[i] else s[i + 1];
    forall x | x in keys - {s[j]}
      ensures x in rest
    {
      var i :| 0 <= i < |s| && s[i] == x;
      if i < j {
        assert rest[i] == x;
      } else {
        assert rest[i - 1] == x;
      }
    }
  }

  /** Two enumerations of the same key set are permutations of each other. */
  lemma EnumerationsPermute<T>(s1: seq<T>, s2: seq<T>, keys: set<T>)
    requires Enumerates(s1, keys) && Enumerates(s2, keys)
    ensures multiset(s1) == multiset(s2)
  {
    forall x
      ensures multiset(s1)[x] == multiset(s2)[x]
    {
      NoDupCount(s1, x);
      NoDupCount(s2, x);
    }
  }
}
