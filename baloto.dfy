/**
 * The Baloto card (`BalotoApartado`): five distinct yellow balls drawn from
 * 1..43, shown in ascending order, and one red ball drawn from 1..16.
 */
module Baloto {

  const YELLOW_COUNT: nat := 5
  const YELLOW_MAX: int := 43
  const RED_MAX: int := 16

  predicate Distinct(s: seq<int>) {
    forall i, j :: 0 <= i < j < |s| ==> s[i] != s[j]
  }

  predicate NonDecreasing(s: seq<int>) {
    forall i, j :: 0 <= i < j < |s| ==> s[i] <= s[j]
  }

  predicate Increasing(s: seq<int>) {
    forall i, j :: 0 <= i < j < |s| ==> s[i] < s[j]
  }

  function Elems(s: seq<int>): set<int> {
    set x | x in s
  }

  /** A ball of `Random.nextInt(1, max + 1)`: from 1 to `max`. */
  predicate InDrum(x: int, max: int) {
    1 <= x <= max
  }

  /**
   * `add` on the insertion-ordered `mutableSetOf`: a value already present
   * leaves the set as it is, a new one goes at the end.
   */
  function Add(chosen: seq<int>, x: int): (r: seq<int>)
    ensures Elems(r) == Elems(chosen) + {x}
    ensures x in chosen ==> r == chosen
    ensures x !in chosen ==> |r| == |chosen| + 1 && r[..|chosen|] == chosen
    ensures Distinct(chosen) ==> Distinct(r)
  {
    if x in chosen then chosen else chosen + [x]
  }

  /** A list without repeats has as many elements as its set. */
  lemma {:induction false} DistinctCard(s: seq<int>)
    requires Distinct(s)
    ensures |Elems(s)| == |s|
  {
    if s != [] {
      var last := s[|s| - 1];
      var init := s[..|s| - 1];
      assert s == init + [last];
      assert Distinct(init);
      DistinctCard(init);
      assert last !in init;
      assert Elems(s) == Elems(init) + {last};
    }
  }

  /** Lists with the same elements, counted with multiplicity, have the same set. */
  lemma SameMultisetSameElems(a: seq<int>, b: seq<int>)
    requires multiset(a) == multiset(b)
    ensures Elems(a) == Elems(b)
  {
    forall x | x in a ensures x in b {
      assert x in multiset(a);
    }
    forall x | x in b ensures x in a {
      assert x in multiset(b);
    }
  }

  /** Putting a value in front of a list: ordered and repeat-free conditions. */
  lemma ConsProperties(h: int, rest: seq<int>)
    ensures NonDecreasing(rest) && (forall e :: e in rest ==> h <= e) ==> NonDecreasing([h] + rest)
    ensures Distinct(rest) && h !in rest ==> Distinct([h] + rest)
  {
    var s := [h] + rest;
    if NonDecreasing(rest) && (forall e :: e in rest ==> h <= e) {
      forall i, j | 0 <= i < j < |s| ensures s[i] <= s[j] {
        if i > 0 {
          assert s[i] == rest[i - 1] && s[j] == rest[j - 1];
        } else {
          assert s[j] == rest[j - 1] && s[j] in rest;
        }
      }
    }
    if Distinct(rest) && h !in rest {
      forall i, j | 0 <= i < j < |s| ensures s[i] != s[j] {
        if i > 0 {
          assert s[i] == rest[i - 1] && s[j] == rest[j - 1];
        } else {
          assert s[j] == rest[j - 1] && s[j] in rest;
        }
      }
    }
  }

  /** Inserting `x` before the first larger element: `x` added, nothing else. */
  function Insert(x: int, xs: seq<int>): (r: seq<int>)
    ensures multiset(r) == multiset(xs) + multiset{x}
    ensures forall e :: e in r <==> e in xs || e == x
    ensures |r| == |xs| + 1
    decreases |xs|
  {
    if xs == [] then [x]
    else if x <= xs[0] then [x] + xs
    else
      assert xs == [xs[0]] + xs[1..];
      [xs[0]] + Insert(x, xs[1..])
  }

  /** Inserting into an ascending list keeps it ascending. */
  lemma {:induction false} InsertKeepsOrder(x: int, xs: seq<int>)
    requires NonDecreasing(xs)
    ensures NonDecreasing(Insert(x, xs))
    decreases |xs|
  {
    if xs != [] && x > xs[0] {
      InsertKeepsOrder(x, xs[1..]);
      assert forall e :: e in xs[1..] ==> xs[0] <= e;
      ConsProperties(xs[0], Insert(x, xs[1..]));
    } else if xs != [] {
      ConsProperties(x, xs);
    }
  }

  /** Inserting a new value into a list without repeats adds no repeat. */
  lemma {:induction false} InsertKeepsDistinct(x: int, xs: seq<int>)
    requires Distinct(xs) && x !in xs
    ensures Distinct(Insert(x, xs))
    decreases |xs|
  {
    if xs != [] && x > xs[0] {
      assert Distinct(xs[1..]);
      InsertKeepsDistinct(x, xs[1..]);
      ConsProperties(xs[0], Insert(x, xs[1..]));
    } else if xs != [] {
      ConsProperties(x, xs);
    }
  }

  /**
   * Kotlin's `sorted()` on a list of integers: the same elements, counted
   * with multiplicity, in non-decreasing order.
   */
  function Sorted(xs: seq<int>): (r: seq<int>)
    ensures multiset(r) == multiset(xs)
    ensures |r| == |xs|
    ensures NonDecreasing(r)
    decreases |xs|
  {
    if xs == [] then []
    else
      assert xs == [xs[0]] + xs[1..];
      InsertKeepsOrder(xs[0], Sorted(xs[1..]));
      Insert(xs[0], Sorted(xs[1..]))
  }

  /** Sorting keeps a list free of repeats. */
  lemma {:induction false} SortedDistinct(xs: seq<int>)
    requires Distinct(xs)
    ensures Distinct(Sorted(xs))
    decreases |xs|
  {
    if xs != [] {
      assert Distinct(xs[1..]);
      SortedDistinct(xs[1..]);
      var rest := Sorted(xs[1..]);
      assert xs[0] !in xs[1..];
      SameMultisetSameElems(rest, xs[1..]);
      assert xs[0] !in Elems(xs[1..]);
      assert xs[0] !in rest;
      InsertKeepsDistinct(xs[0], rest);
    }
  }

  /** Sorting values without repeats puts them in strictly ascending order. */
  lemma SortedDistinctIncreasing(xs: seq<int>)
    requires Distinct(xs)
    ensures Increasing(Sorted(xs))
  {
    var r := Sorted(xs);
    SortedDistinct(xs);
    forall i, j | 0 <= i < j < |r|
      ensures r[i] < r[j]
    {
      assert r[i] <= r[j] && r[i] != r[j];
    }
  }

  /** A prefix has no value the whole list lacks, and the full prefix is the list. */
  lemma ElemsOfPrefix(s: seq<int>, i: nat)
    requires i <= |s|
    ensures Elems(s[..i]) <= Elems(s)
    ensures i == |s| ==> Elems(s[..i]) == Elems(s)
  {
    assert s[..|s|] == s;
  }

  /** The set of a prefix grows by the next element. */
  lemma ElemsOfLongerPrefix(s: seq<int>, i: nat)
    requires i < |s|
    ensures Elems(s[..i + 1]) == Elems(s[..i]) + {s[i]}
  {
    assert s[..i + 1] == s[..i] + [s[i]];
  }

  /** Adding one value grows a set by at most one. */
  lemma OneMoreAtMostOne(a: set<int>, x: int)
    ensures |a + {x}| <= |a| + 1
  {
    if x in a {
      assert a + {x} == a;
    }
  }

  /** Five repeat-free chosen balls, sorted: ascending, same set, same bounds. */
  lemma SortedBalls(chosen: seq<int>, pool: set<int>)
    requires Distinct(chosen) && Elems(chosen) == pool
    requires forall x :: x in pool ==> InDrum(x, YELLOW_MAX)
    ensures Increasing(Sorted(chosen))
    ensures Elems(Sorted(chosen)) == pool
    ensures forall i :: 0 <= i < |Sorted(chosen)| ==> InDrum(Sorted(chosen)[i], YELLOW_MAX)
  {
    SortedDistinctIncreasing(chosen);
    var balls := Sorted(chosen);
    SameMultisetSameElems(balls, chosen);
    forall i | 0 <= i < |balls| ensures InDrum(balls[i], YELLOW_MAX) {
      assert balls[i] in Elems(balls);
    }
  }

  /** Every draw lies in the drum, so every value of a prefix does. */
  lemma PrefixInDrum(draws: seq<int>, used: nat)
    requires used <= |draws|
    requires forall i :: 0 <= i < |draws| ==> InDrum(draws[i], YELLOW_MAX)
    ensures forall x :: x in Elems(draws[..used]) ==> InDrum(x, YELLOW_MAX)
  {
  }

  /**
   * The yellow-ball loop: keep adding draws to the set until it holds five
   * values, then list them in ascending order. `draws` stands for the
   * successive results of the random generator; `used` says how many of
   * them the loop consumed. The loop stops at the first draw that brings
   * the set to five distinct values.
   */
  method DrawYellowBalls(draws: seq<int>) returns (balls: seq<int>, used: nat)
    requires forall i :: 0 <= i < |draws| ==> InDrum(draws[i], YELLOW_MAX)
    requires |Elems(draws)| >= YELLOW_COUNT
    ensures YELLOW_COUNT <= used <= |draws|
    ensures |balls| == YELLOW_COUNT
    ensures Increasing(balls)
    ensures forall i :: 0 <= i < |balls| ==> InDrum(balls[i], YELLOW_MAX)
    ensures Elems(balls) == Elems(draws[..used])
    ensures |Elems(draws[..used - 1])| == YELLOW_COUNT - 1
  {
    var chosen: seq<int> := [];
    used := 0;
    while |chosen| < YELLOW_COUNT
      invariant used <= |draws|
      invariant Distinct(chosen)
      invariant Elems(chosen) == Elems(draws[..used])
      invariant |chosen| <= YELLOW_COUNT && |chosen| <= used
      invariant used > 0 ==> |Elems(draws[..used - 1])| < YELLOW_COUNT
      decreases |draws| - used
    {
      DistinctCard(chosen);
      ElemsOfPrefix(draws, used);
      ElemsOfLongerPrefix(draws, used);
      chosen := Add(chosen, draws[used]);
      used := used + 1;
    }
    DistinctCard(chosen);
    ElemsOfLongerPrefix(draws, used - 1);
    assert draws[..used - 1 + 1] == draws[..used];
    OneMoreAtMostOne(Elems(draws[..used - 1]), draws[used - 1]);
    PrefixInDrum(draws, used);
    SortedBalls(chosen, Elems(draws[..used]));
    balls := Sorted(chosen);
  }

  class BalotoTicket {
    /** The yellow balls, ascending; empty until the first draw. */
    var bolasAmarillas: seq<int>
    /** The red ball; 0 until the first draw. */
    var bolaRoja: int

    constructor ()
      ensures bolasAmarillas == [] && bolaRoja == 0
    {
      bolasAmarillas, bolaRoja := [], 0;
    }

    /** "Generar Baloto": the five yellow balls, then the red one. */
    method Generate(draws: seq<int>, redDraw: int)
      requires forall i :: 0 <= i < |draws| ==> InDrum(draws[i], YELLOW_MAX)
      requires |Elems(draws)| >= YELLOW_COUNT
      requires InDrum(redDraw, RED_MAX)
      modifies this
      ensures |bolasAmarillas| == YELLOW_COUNT && Increasing(bolasAmarillas)
      ensures forall i :: 0 <= i < |bolasAmarillas| ==> InDrum(bolasAmarillas[i], YELLOW_MAX)
      ensures exists used :: YELLOW_COUNT <= used <= |draws| && Elems(bolasAmarillas) == Elems(draws[..used])
      ensures bolaRoja == redDraw
    {
      var used;
      bolasAmarillas, used := DrawYellowBalls(draws);
      bolaRoja := redDraw;
    }
  }
}
