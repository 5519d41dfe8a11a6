/** Facts about sequences shared by the model's proofs. */
module Seqs {

  /** Concatenation regroups freely; stated once so that proofs can cite it instead of rediscovering it. */
  lemma AppendAssoc<T>(a: seq<T>, b: seq<T>, c: seq<T>)
    ensures a + b + c == a + (b + c)
  {
  }

  /** A non-empty sequence is its prefix followed by its last element. */
  lemma SplitLast<T>(s: seq<T>)
    requires s != []
    ensures s == s[..|s| - 1] + [s[|s| - 1]]
  {
  }

  /** `forEach` pushing `f(x)`'s items for every `x`, in order: the items of `f(s[0])`, then of `f(s[1])`, and so on. */
  function FlatMap<A, B>(f: A -> seq<B>, s: seq<A>): seq<B> {
    if s == [] then [] else FlatMap(f, s[..|s| - 1]) + f(s[|s| - 1])
  }

  /** A single element contributes exactly its own items. */
  lemma FlatMapSingle<A, B>(f: A -> seq<B>, x: A)
    ensures FlatMap(f, [x]) == f(x)
  {
    assert [x][..0] == [];
  }

  lemma {:induction false} FlatMapAppend<A, B>(f: A -> seq<B>, a: seq<A>, b: seq<A>)
    ensures FlatMap(f, a + b) == FlatMap(f, a) + FlatMap(f, b)
    decreases |b|
  {
    if b == [] {
      assert a + b == a;
    } else {
      var init, last := b[..|b| - 1], b[|b| - 1];
      FlatMapAppend(f, a, init);
      assert (a + b)[..|a + b| - 1] == a + init;
      AppendAssoc(FlatMap(f, a), FlatMap(f, init), f(last));
    }
  }

  /** The items contributed by `s[i]` sit, contiguous, between those of the elements before and after it. */
  lemma {:induction false} FlatMapAt<A, B>(f: A -> seq<B>, s: seq<A>, i: nat)
    requires i < |s|
    ensures FlatMap(f, s) == FlatMap(f, s[..i]) + f(s[i]) + FlatMap(f, s[i + 1..])
  {
    var init, last := s[..|s| - 1], s[|s| - 1];
    if i == |s| - 1 {
      assert s[..i] == init && s[i + 1..] == [];
    } else {
      FlatMapAt(f, init, i);
      var tail := s[i + 1..];
      assert init[..i] == s[..i] && init[i] == s[i];
      assert tail[..|tail| - 1] == init[i + 1..] && tail[|tail| - 1] == last;
      AppendAssoc(FlatMap(f, s[..i]) + f(s[i]), FlatMap(f, init[i + 1..]), f(last));
    }
  }

  /** An item is produced exactly when some element of `s` produces it. */
  lemma {:induction false} FlatMapContains<A, B>(f: A -> seq<B>, s: seq<A>, y: B)
    ensures y in FlatMap(f, s) <==> exists x :: x in s && y in f(x)
  {
    if s != [] {
      var init, last := s[..|s| - 1], s[|s| - 1];
      FlatMapContains(f, init, y);
      assert s == init + [last];
      if exists x :: x in s && y in f(x) {
        var x :| x in s && y in f(x);
        if x != last {
          assert x in init;
        }
      }
    }
  }
}
