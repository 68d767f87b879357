/** Duplicate-free sequences and `[...new Set(xs)]`. */
module Lists {
  predicate NoDup<T(==)>(xs: seq<T>)
  {
    forall i, j :: 0 <= i < j < |xs| ==> xs[i] != xs[j]
  }

  /** `[...new Set(xs)]`: the elements of `xs` in order of first appearance, each once. */
  function Dedup<T(==)>(xs: seq<T>): seq<T>
    decreases |xs|
  {
    if |xs| == 0 then []
    else
      var d := Dedup(xs[..|xs| - 1]);
      if xs[|xs| - 1] in d then d else d + [xs[|xs| - 1]]
  }

  /** Deduplication keeps exactly the elements it is given, each once. */
  lemma {:induction false} DedupFacts<T>(xs: seq<T>)
    ensures NoDup(Dedup(xs))
    ensures forall x :: x in Dedup(xs) <==> x in xs
    decreases |xs|
  {
    if |xs| > 0 {
      var init := xs[..|xs| - 1];
      DedupFacts(init);
      assert xs == init + [xs[|xs| - 1]];
    }
  }

  /** A sequence without duplicates is its own deduplication. */
  lemma {:induction false} DedupOfDistinct<T>(xs: seq<T>)
    requires NoDup(xs)
    ensures Dedup(xs) == xs
    decreases |xs|
  {
    if |xs| > 0 {
      var init := xs[..|xs| - 1];
      DedupOfDistinct(init);
      assert xs[|xs| - 1] !in init;
      assert init + [xs[|xs| - 1]] == xs;
    }
  }

  /** Deduplicating a longer sequence only adds at the end. */
  lemma {:induction false} DedupPrefix<T>(a: seq<T>, b: seq<T>)
    ensures Dedup(a) <= Dedup(a + b)
    decreases |b|
  {
    if |b| == 0 {
      assert a + b == a;
    } else {
      var ab := a + b;
      assert ab[..|ab| - 1] == a + b[..|b| - 1];
      DedupPrefix(a, b[..|b| - 1]);
    }
  }

  /** The deduplicated union of a duplicate-free `a` with `b` keeps `a` in place at its front,
      and holds every element of either, each once. */
  lemma DedupUnion<T>(a: seq<T>, b: seq<T>)
    ensures NoDup(Dedup(a + b))
    ensures forall x :: x in Dedup(a + b) <==> x in a || x in b
    ensures NoDup(a) ==> a <= Dedup(a + b)
  {
    DedupFacts(a + b);
    DedupPrefix(a, b);
    if NoDup(a) {
      DedupOfDistinct(a);
    }
  }
}
