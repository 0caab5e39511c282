/**
 * Counting over lists, as the analyser does with `sum(1 for x in xs if p(x))`
 * and with `collections.Counter`.
 */
module Counting {

  /** The number of elements of xs that satisfy p. */
  function Count<T>(xs: seq<T>, p: T -> bool): nat
  {
    if |xs| == 0 then 0 else Count(xs[..|xs| - 1], p) + (if p(xs[|xs| - 1]) then 1 else 0)
  }

  /** Counting one more element adds one exactly when it satisfies p. */
  lemma CountAppend<T>(xs: seq<T>, x: T, p: T -> bool)
    ensures Count(xs + [x], p) == Count(xs, p) + (if p(x) then 1 else 0)
  {
    assert (xs + [x])[..|xs|] == xs;
  }

  /** No more elements are counted than there are, and none when none satisfies p. */
  lemma {:induction false} CountBounds<T>(xs: seq<T>, p: T -> bool)
    ensures Count(xs, p) <= |xs|
    ensures (forall i :: 0 <= i < |xs| ==> !p(xs[i])) ==> Count(xs, p) == 0
  {
    if |xs| > 0 {
      CountBounds(xs[..|xs| - 1], p);
    }
  }

  /** How often x occurs in xs: one entry of `Counter(xs)`. */
  function Occurrences<T(==)>(xs: seq<T>, x: T): nat
  {
    if |xs| == 0 then 0 else Occurrences(xs[..|xs| - 1], x) + (if xs[|xs| - 1] == x then 1 else 0)
  }

  /** The values whose count exceeds one: `[v for v, c in Counter(xs).items() if c > 1]`. */
  ghost function Duplicated<T>(xs: seq<T>): set<T>
  {
    set x | x in xs && Occurrences(xs, x) > 1
  }

  /** The values that occur exactly once. */
  ghost function Single<T>(xs: seq<T>): set<T>
  {
    set x | x in xs && Occurrences(xs, x) == 1
  }

  /** `sum(1 for count in Counter(xs).values() if count > 1)`, by scanning the distinct values. */
  function DuplicateCount<T(==)>(xs: seq<T>): (r: nat)
  {
    DuplicatesAmong(Distinct(xs), xs)
  }

  /** The values of xs in order of first occurrence, each once: the keys of `Counter(xs)`. */
  function Distinct<T(==)>(xs: seq<T>): seq<T>
  {
    if |xs| == 0 then []
    else if xs[|xs| - 1] in xs[..|xs| - 1] then Distinct(xs[..|xs| - 1])
    else Distinct(xs[..|xs| - 1]) + [xs[|xs| - 1]]
  }

  function DuplicatesAmong<T(==)>(keys: seq<T>, xs: seq<T>): nat
  {
    if |keys| == 0 then 0
    else DuplicatesAmong(keys[..|keys| - 1], xs) + (if Occurrences(xs, keys[|keys| - 1]) > 1 then 1 else 0)
  }

  lemma OccurrencesAppend<T>(xs: seq<T>, y: T, x: T)
    ensures Occurrences(xs + [y], x) == Occurrences(xs, x) + (if y == x then 1 else 0)
  {
    assert (xs + [y])[..|xs|] == xs;
  }

  /** x occurs in xs exactly when it is counted at least once. */
  lemma {:induction false} OccurrencesPositive<T>(xs: seq<T>, x: T)
    ensures x in xs <==> Occurrences(xs, x) > 0
  {
    if |xs| > 0 {
      var ys := xs[..|xs| - 1];
      OccurrencesPositive(ys, x);
      assert xs == ys + [xs[|xs| - 1]];
    }
  }

  /** The keys are distinct and are exactly the values of xs. */
  lemma {:induction false} DistinctShape<T>(xs: seq<T>)
    ensures forall x :: x in Distinct(xs) <==> x in xs
    ensures forall i, j :: 0 <= i < j < |Distinct(xs)| ==> Distinct(xs)[i] != Distinct(xs)[j]
  {
    if |xs| > 0 {
      var ys := xs[..|xs| - 1];
      DistinctShape(ys);
      assert xs == ys + [xs[|xs| - 1]];
    }
  }

  /** The keys that occur more than once in xs. */
  ghost function DuplicatedKeys<T>(keys: seq<T>, xs: seq<T>): set<T>
  {
    set k | k in keys && Occurrences(xs, k) > 1
  }

  /** Scanning distinct keys counts the keys that are duplicated. */
  lemma {:induction false} DuplicatesAmongCounts<T>(keys: seq<T>, xs: seq<T>)
    requires forall i, j :: 0 <= i < j < |keys| ==> keys[i] != keys[j]
    ensures DuplicatesAmong(keys, xs) == |DuplicatedKeys(keys, xs)|
  {
    if |keys| > 0 {
      var front, last := keys[..|keys| - 1], keys[|keys| - 1];
      DuplicatesAmongCounts(front, xs);
      assert keys == front + [last];
      assert last !in front;
      if Occurrences(xs, last) > 1 {
        assert DuplicatedKeys(keys, xs) == DuplicatedKeys(front, xs) + {last};
      } else {
        assert DuplicatedKeys(keys, xs) == DuplicatedKeys(front, xs);
      }
    }
  }

  /** The scan agrees with the reference set of duplicated values. */
  lemma DuplicateCountIsDuplicated<T>(xs: seq<T>)
    ensures DuplicateCount(xs) == |Duplicated(xs)|
  {
    DistinctShape(xs);
    DuplicatesAmongCounts(Distinct(xs), xs);
    assert DuplicatedKeys(Distinct(xs), xs) == Duplicated(xs);
  }

  /** How one value's count and membership change when z is appended. */
  lemma AppendFacts<T>(ys: seq<T>, z: T, x: T)
    ensures Occurrences(ys + [z], x) == Occurrences(ys, x) + (if z == x then 1 else 0)
    ensures x in ys + [z] <==> Occurrences(ys + [z], x) > 0
    ensures x in ys <==> Occurrences(ys, x) > 0
  {
    OccurrencesAppend(ys, z, x);
    OccurrencesPositive(ys + [z], x);
    OccurrencesPositive(ys, x);
  }

  /** A value seen for the first time becomes single. */
  lemma AppendNew<T>(ys: seq<T>, z: T)
    requires Occurrences(ys, z) == 0
    ensures Duplicated(ys + [z]) == Duplicated(ys)
    ensures Single(ys + [z]) == Single(ys) + {z}
  {
    forall x ensures x in Duplicated(ys + [z]) <==> x in Duplicated(ys) {
      AppendFacts(ys, z, x);
    }
    forall x ensures x in Single(ys + [z]) <==> x in Single(ys) + {z} {
      AppendFacts(ys, z, x);
    }
  }

  /** A value seen for the second time moves from single to duplicated. */
  lemma AppendSecond<T>(ys: seq<T>, z: T)
    requires Occurrences(ys, z) == 1
    ensures Duplicated(ys + [z]) == Duplicated(ys) + {z} && z !in Duplicated(ys)
    ensures Single(ys + [z]) == Single(ys) - {z} && z in Single(ys)
  {
    AppendFacts(ys, z, z);
    forall x ensures x in Duplicated(ys + [z]) <==> x in Duplicated(ys) + {z} {
      AppendFacts(ys, z, x);
    }
    forall x ensures x in Single(ys + [z]) <==> x in Single(ys) - {z} {
      AppendFacts(ys, z, x);
    }
  }

  /** A value seen a third time or more changes neither set. */
  lemma AppendMore<T>(ys: seq<T>, z: T)
    requires Occurrences(ys, z) > 1
    ensures Duplicated(ys + [z]) == Duplicated(ys)
    ensures Single(ys + [z]) == Single(ys)
  {
    forall x ensures x in Duplicated(ys + [z]) <==> x in Duplicated(ys) {
      AppendFacts(ys, z, x);
    }
    forall x ensures x in Single(ys + [z]) <==> x in Single(ys) {
      AppendFacts(ys, z, x);
    }
  }

  /** Each duplicated value takes at least two places and each single one a place of its own. */
  lemma {:induction false} DuplicatesTakeTwoPlaces<T>(xs: seq<T>)
    ensures 2 * |Duplicated(xs)| + |Single(xs)| <= |xs|
  {
    if |xs| > 0 {
      var ys, z := xs[..|xs| - 1], xs[|xs| - 1];
      assert xs == ys + [z];
      DuplicatesTakeTwoPlaces(ys);
      var n := Occurrences(ys, z);
      if n == 0 {
        AppendNew(ys, z);
      } else if n == 1 {
        AppendSecond(ys, z);
      } else {
        AppendMore(ys, z);
      }
    }
  }

  /** At most half of the list's entries can be duplicated values. */
  lemma DuplicateCountAtMostHalf<T>(xs: seq<T>)
    ensures 2 * DuplicateCount(xs) <= |xs|
  {
    DuplicateCountIsDuplicated(xs);
    DuplicatesTakeTwoPlaces(xs);
  }
}
