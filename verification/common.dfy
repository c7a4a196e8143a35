/**
 Small building blocks shared by the other modules: an option type, duplicate-free
 sequences, PHP's `array_unique` on a list, and a seed-driven shuffle that stands
 for every source of randomness in the system (`ORDER BY RAND()` and `shuffle()`).
 */
module Common {

  datatype Option<+T> = None | Some(value: T)

  datatype Result<+R, +E> = Success(value: R) | Failure(error: E)

  /** No value occurs twice in `xs`. */
  predicate NoDup<T(==)>(xs: seq<T>) {
    forall i, j :: 0 <= i < j < |xs| ==> xs[i] != xs[j]
  }

  /** `array_unique` applied to a list of ids: keeps the first occurrence of every value,
      in the order of first occurrence. */
  function Dedup(xs: seq<int>): seq<int>
    decreases |xs|
  {
    if |xs| == 0 then []
    else
      var p := Dedup(xs[..|xs| - 1]);
      var x := xs[|xs| - 1];
      if x in p then p else p + [x]
  }

  /** `Dedup` keeps every value of its input, once, and nothing else. */
  lemma {:induction false} DedupSpec(xs: seq<int>)
    ensures NoDup(Dedup(xs))
    ensures forall x :: x in Dedup(xs) <==> x in xs
    ensures |Dedup(xs)| <= |xs|
    decreases |xs|
  {
    if |xs| > 0 {
      var init := xs[..|xs| - 1];
      DedupSpec(init);
      assert xs == init + [xs[|xs| - 1]];
    }
  }

  /** A list that already has no duplicates is left as it is. */
  lemma {:induction false} DedupOfNoDup(xs: seq<int>)
    requires NoDup(xs)
    ensures Dedup(xs) == xs
    decreases |xs|
  {
    if |xs| > 0 {
      var init := xs[..|xs| - 1];
      assert NoDup(init);
      DedupOfNoDup(init);
      assert xs[|xs| - 1] !in init;
      assert xs == init + [xs[|xs| - 1]];
    }
  }

  /** Deduplicating in two steps is the same as deduplicating once. */
  lemma {:induction false} DedupAppend(a: seq<int>, b: seq<int>)
    ensures Dedup(Dedup(a) + b) == Dedup(a + b)
    decreases |b|
  {
    if |b| == 0 {
      assert Dedup(a) + b == Dedup(a);
      assert a + b == a;
      DedupSpec(a);
      DedupOfNoDup(Dedup(a));
    } else {
      var b' := b[..|b| - 1];
      var x := b[|b| - 1];
      DedupAppend(a, b');
      assert (Dedup(a) + b)[..|Dedup(a) + b| - 1] == Dedup(a) + b';
      assert (a + b)[..|a + b| - 1] == a + b';
    }
  }

  /** The three-list form of `DedupAppend` used when answers arrive one query at a time. */
  lemma DedupAppend3(a: seq<int>, b: seq<int>, c: seq<int>)
    ensures Dedup(Dedup(a + b) + c) == Dedup(a + (b + c))
  {
    DedupAppend(a + b, c);
    ConcatAssoc(a, b, c);
  }

  /** Concatenation regrouped. Kept apart so that the proof above does not have to
      establish it next to the unfolding of `Dedup`. */
  lemma ConcatAssoc<T>(a: seq<T>, b: seq<T>, c: seq<T>)
    ensures a + b + c == a + (b + c)
  {
  }

  /** Deduplicating a longer list never disturbs what the shorter one produced:
      `Dedup(a)` is a prefix of `Dedup(a + b)`. */
  lemma {:induction false} DedupPrefix(a: seq<int>, b: seq<int>)
    ensures |Dedup(a)| <= |Dedup(a + b)|
    ensures Dedup(a + b)[..|Dedup(a)|] == Dedup(a)
    decreases |b|
  {
    if |b| == 0 {
      assert a + b == a;
    } else {
      var b' := b[..|b| - 1];
      DedupPrefix(a, b');
      assert (a + b)[..|a + b| - 1] == a + b';
    }
  }

  /** Deduplicating a duplicate-free list followed by more values keeps that list,
      unchanged, in front. */
  lemma DedupExtends(a: seq<int>, b: seq<int>)
    ensures NoDup(a) ==> |a| <= |Dedup(a + b)| && Dedup(a + b)[..|a|] == a
  {
    DedupPrefix(a, b);
    if NoDup(a) {
      DedupOfNoDup(a);
    }
  }

  /** One step of a seeded Fisher-Yates draw: the seed's head picks the position of
      the next element; a missing or out-of-range head picks the first. */
  function Pick(n: nat, seed: seq<nat>): (j: nat)
    ensures n > 0 ==> j < n
  {
    if |seed| == 0 || seed[0] >= n then 0 else seed[0]
  }

  /** Puts `xs` in the order chosen by `seed`. Each seed value selects, among the
      elements not yet placed, the one to place next; a short seed selects the first. */
  function Shuffle<T>(xs: seq<T>, seed: seq<nat>): (r: seq<T>)
    ensures multiset(r) == multiset(xs)
    ensures |r| == |xs|
    decreases |xs|
  {
    if |xs| == 0 then []
    else
      var j := Pick(|xs|, seed);
      var rest := xs[..j] + xs[j + 1..];
      assert xs == xs[..j] + [xs[j]] + xs[j + 1..];
      [xs[j]] + Shuffle(rest, if |seed| == 0 then [] else seed[1..])
  }

  /** An empty seed keeps the order. */
  lemma {:induction false} ShuffleEmptySeed<T>(xs: seq<T>)
    ensures Shuffle(xs, []) == xs
    decreases |xs|
  {
    if |xs| > 0 {
      ShuffleEmptySeed(xs[1..]);
      assert xs[..0] + xs[1..] == xs[1..];
    }
  }

  /** A single element has one order. */
  lemma ShuffleSingleton<T>(x: T, seed: seq<nat>)
    ensures Shuffle([x], seed) == [x]
  {
    assert [x][..0] + [x][1..] == [];
  }

  /** Position of the first occurrence of `x` in `xs`. */
  function IndexOf<T(==)>(xs: seq<T>, x: T): (i: nat)
    requires x in xs
    ensures i < |xs| && xs[i] == x
  {
    if xs[0] == x then 0 else 1 + IndexOf(xs[1..], x)
  }

  /** Removing position `j` removes exactly one copy of `xs[j]`. */
  lemma RemoveAtMultiset<T>(xs: seq<T>, j: nat)
    requires j < |xs|
    ensures multiset(xs[..j] + xs[j + 1..]) == multiset(xs) - multiset{xs[j]}
  {
    assert xs == xs[..j] + [xs[j]] + xs[j + 1..];
  }

  /** The seed model loses nothing: every rearrangement of `xs` is the shuffle of
      `xs` under some seed, the one that names, at each step, the position of the
      next wanted element among those not yet placed. */
  lemma {:induction false} ShuffleReachesEveryPermutation<T>(xs: seq<T>, ys: seq<T>)
    requires multiset(ys) == multiset(xs)
    ensures exists seed :: Shuffle(xs, seed) == ys
    decreases |xs|
  {
    if |xs| == 0 {
      assert |ys| == |multiset(ys)| == 0;
      assert Shuffle(xs, []) == ys;
    } else {
      var j := RemoveFirstWanted(xs, ys);
      var rest := xs[..j] + xs[j + 1..];
      ShuffleReachesEveryPermutation(rest, ys[1..]);
      var tail :| Shuffle(rest, tail) == ys[1..];
      ShuffleWithHead(xs, j, tail);
      PlaceWanted(xs, ys, j, tail);
    }
  }

  /** Placing the first wanted element, then the rest as wanted, gives what is wanted. */
  lemma PlaceWanted<T>(xs: seq<T>, ys: seq<T>, j: nat, tail: seq<nat>)
    requires j < |xs| && 0 < |ys| && xs[j] == ys[0]
    requires Shuffle(xs, [j] + tail) == [xs[j]] + Shuffle(xs[..j] + xs[j + 1..], tail)
    requires Shuffle(xs[..j] + xs[j + 1..], tail) == ys[1..]
    ensures Shuffle(xs, [j] + tail) == ys
  {
    assert [xs[j]] + ys[1..] == ys;
  }

  /** The first wanted element is in `xs`; taking it out leaves the rest of what is
      wanted. */
  lemma RemoveFirstWanted<T>(xs: seq<T>, ys: seq<T>) returns (j: nat)
    requires multiset(ys) == multiset(xs) && |xs| > 0
    ensures j < |xs| && 0 < |ys| && xs[j] == ys[0]
    ensures multiset(ys[1..]) == multiset(xs[..j] + xs[j + 1..])
  {
    assert |ys| == |multiset(ys)| == |multiset(xs)| == |xs|;
    assert ys[0] in multiset(xs);
    j := IndexOf(xs, ys[0]);
    RemoveAtMultiset(xs, j);
    assert ys == [ys[0]] + ys[1..];
    assert multiset(ys) == multiset{ys[0]} + multiset(ys[1..]);
  }

  /** A seed whose head is a position in range places that element first. */
  lemma ShuffleWithHead<T>(xs: seq<T>, j: nat, tail: seq<nat>)
    requires j < |xs|
    ensures Shuffle(xs, [j] + tail) == [xs[j]] + Shuffle(xs[..j] + xs[j + 1..], tail)
  {
    var seed := [j] + tail;
    assert Pick(|xs|, seed) == j;
    assert seed[1..] == tail;
  }
}
