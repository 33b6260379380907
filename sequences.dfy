/**
 * Sequence facts used by the store: a left-to-right map-and-concatenate over
 * a list, the shape of the append loops the application writes, and its
 * behaviour under concatenation and reordering.
 */
module Sequences {

  /** `f(s[0]) + f(s[1]) + ...`, built by appending one element's part at a time. */
  function FlatMap<T, U>(f: T -> seq<U>, s: seq<T>): seq<U>
  {
    if s == [] then [] else FlatMap(f, s[..|s| - 1]) + f(s[|s| - 1])
  }

  lemma AppendAssoc<T>(a: seq<T>, b: seq<T>, c: seq<T>)
    ensures (a + b) + c == a + (b + c)
  {
  }

  /** One more element appends its part. */
  lemma FlatMapStep<T, U>(f: T -> seq<U>, s: seq<T>, i: nat)
    requires i < |s|
    ensures FlatMap(f, s[..i + 1]) == FlatMap(f, s[..i]) + f(s[i])
  {
    assert s[..i + 1][..i] == s[..i];
  }

  /** The whole list is its longest prefix. */
  lemma FlatMapAll<T, U>(f: T -> seq<U>, s: seq<T>)
    ensures FlatMap(f, s[..|s|]) == FlatMap(f, s)
  {
    assert s[..|s|] == s;
  }

  /** A single element contributes its part. */
  lemma FlatMapSingle<T, U>(f: T -> seq<U>, x: T)
    ensures FlatMap(f, [x]) == f(x)
  {
    assert [x][..0] == [];
  }

  /** Mapping a concatenation concatenates the results. */
  lemma {:induction false} FlatMapAppend<T, U>(f: T -> seq<U>, a: seq<T>, b: seq<T>)
    ensures FlatMap(f, a + b) == FlatMap(f, a) + FlatMap(f, b)
    decreases |b|
  {
    if b == [] {
      assert a + b == a;
    } else {
      var b' := b[..|b| - 1];
      assert (a + b)[..|a + b| - 1] == a + b';
      assert (a + b)[|a + b| - 1] == b[|b| - 1];
      FlatMapAppend(f, a, b');
    }
  }

  /** The result around position j: the part before it, its own part, the part after it. */
  lemma FlatMapAround<T, U>(f: T -> seq<U>, s: seq<T>, j: nat)
    requires j < |s|
    ensures FlatMap(f, s) == FlatMap(f, s[..j]) + f(s[j]) + FlatMap(f, s[j + 1..])
    ensures FlatMap(f, s[..j] + s[j + 1..]) == FlatMap(f, s[..j]) + FlatMap(f, s[j + 1..])
  {
    var before, after := s[..j], s[j + 1..];
    assert s == before + ([s[j]] + after);
    FlatMapAppend(f, before, [s[j]] + after);
    FlatMapAppend(f, [s[j]], after);
    FlatMapAppend(f, before, after);
    FlatMapSingle(f, s[j]);
  }

  /** Taking the last element off one of two permutations, and one occurrence of it off the other, leaves permutations. */
  lemma PermutationWithoutLast<T>(order: seq<T>, s: seq<T>, j: nat)
    requires multiset(order) == multiset(s) && order != []
    requires j < |s| && s[j] == order[|order| - 1]
    ensures multiset(order[..|order| - 1]) == multiset(s[..j] + s[j + 1..])
  {
    var last, init := order[|order| - 1], order[..|order| - 1];
    var before, after := s[..j], s[j + 1..];
    assert order == init + [last];
    assert s == (before + after[..0]) + [last] + after;
    assert multiset(init) + multiset{last} == multiset(before + after) + multiset{last};
    assert multiset(init) == multiset(init) + multiset{last} - multiset{last};
    assert multiset(before + after) == multiset(before + after) + multiset{last} - multiset{last};
  }

  /** Reordering the list reorders the result's elements and nothing else. */
  lemma {:induction false} FlatMapPermutation<T, U>(f: T -> seq<U>, order: seq<T>, s: seq<T>)
    requires multiset(order) == multiset(s)
    ensures multiset(FlatMap(f, order)) == multiset(FlatMap(f, s))
    decreases |order|
  {
    if order != [] {
      var last := order[|order| - 1];
      assert last in multiset(s);
      var j :| 0 <= j < |s| && s[j] == last;
      PermutationWithoutLast(order, s, j);
      FlatMapPermutation(f, order[..|order| - 1], s[..j] + s[j + 1..]);
      FlatMapAround(f, s, j);
      var rb, ra := FlatMap(f, s[..j]), FlatMap(f, s[j + 1..]);
      assert multiset(rb + f(last) + ra) == multiset(rb + ra) + multiset(f(last));
    }
  }
}
