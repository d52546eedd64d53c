/**
 * Kotlin's read-only `Map` as built by `mapOf` and `toMap`: a `LinkedHashMap`,
 * which iterates in the order keys were first inserted. Both maps of the
 * questionnaire are `Map<String, Int>`; one is modelled as a list of entries
 * whose keys are pairwise distinct.
 */
module OrderedMap {
  import opened Wrappers

  type Entries = seq<(string, int)>

  predicate DistinctKeys(m: Entries) {
    forall i, j :: 0 <= i < j < |m| ==> m[i].0 != m[j].0
  }

  /** `m[k]`: the value stored under `k`, or null. */
  function Get(m: Entries, k: string): (r: Option<int>)
    ensures r.None? <==> forall i :: 0 <= i < |m| ==> m[i].0 != k
    ensures r.Some? ==> (k, r.value) in m
  {
    if m == [] then None
    else if m[0].0 == k then Some(m[0].1)
    else
      var r := Get(m[1..], k);
      assert forall i :: 1 <= i < |m| ==> m[i] == m[1..][i - 1];
      r
  }

  /**
   * `put(k, v)`: a key already present keeps its place and takes the new
   * value; a new key goes at the end.
   */
  function Put(m: Entries, k: string, v: int): (r: Entries)
    ensures Get(r, k) == Some(v)
    ensures Get(m, k).None? ==> r == m + [(k, v)]
    ensures Get(m, k).Some? ==> |r| == |m|
    ensures forall e :: e in r ==> e in m || e == (k, v)
  {
    if m == [] then [(k, v)]
    else if m[0].0 == k then [(k, v)] + m[1..]
    else
      var rest := Put(m[1..], k, v);
      assert m == [m[0]] + m[1..];
      assert Get(m, k) == Get(m[1..], k);
      [m[0]] + rest
  }

  /** `put` changes nothing stored under another key. */
  lemma {:induction false} PutOther(m: Entries, k: string, v: int, k': string)
    requires k' != k
    ensures Get(Put(m, k, v), k') == Get(m, k')
  {
    if m != [] && m[0].0 != k {
      PutOther(m[1..], k, v, k');
      assert Put(m, k, v)[1..] == Put(m[1..], k, v);
    }
  }

  /** `put` keeps the keys distinct. */
  lemma {:induction false} PutDistinct(m: Entries, k: string, v: int)
    requires DistinctKeys(m)
    ensures DistinctKeys(Put(m, k, v))
  {
    if m != [] {
      var tail := m[1..];
      assert DistinctKeys(tail);
      assert forall i :: 0 <= i < |tail| ==> tail[i].0 != m[0].0 by {
        forall i | 0 <= i < |tail| ensures tail[i].0 != m[0].0 {
          assert tail[i] == m[i + 1];
        }
      }
      if m[0].0 == k {
        ConsDistinctKeys((k, v), tail);
      } else {
        var rest := Put(tail, k, v);
        PutDistinct(tail, k, v);
        forall i | 0 <= i < |rest| ensures rest[i].0 != m[0].0 {
          if Get(tail, k).None? {
            if i < |tail| {
              assert rest[i] == tail[i];
            }
          } else {
            PutKeys(tail, k, v);
          }
        }
        ConsDistinctKeys(m[0], rest);
      }
    }
  }

  /** A head whose key no later entry has keeps the keys distinct. */
  lemma ConsDistinctKeys(h: (string, int), rest: Entries)
    requires DistinctKeys(rest)
    requires forall i :: 0 <= i < |rest| ==> rest[i].0 != h.0
    ensures DistinctKeys([h] + rest)
  {
    var m := [h] + rest;
    forall i, j | 0 <= i < j < |m| ensures m[i].0 != m[j].0 {
      assert m[j] == rest[j - 1];
      if i > 0 {
        assert m[i] == rest[i - 1];
      }
    }
  }

  /** Replacing a value leaves every key where it was. */
  lemma {:induction false} PutKeys(m: Entries, k: string, v: int)
    requires Get(m, k).Some?
    ensures |Put(m, k, v)| == |m|
    ensures forall i :: 0 <= i < |m| ==> Put(m, k, v)[i].0 == m[i].0
  {
    if m[0].0 != k {
      PutKeys(m[1..], k, v);
    }
  }

  /** `List<Pair<String, Int>>.toMap()`: the pairs put in order, so a repeated key keeps its last value. */
  function ToMap(pairs: Entries): (r: Entries)
    ensures DistinctKeys(r)
    ensures forall e :: e in r ==> e in pairs
  {
    if pairs == [] then []
    else
      var last := pairs[|pairs| - 1];
      PutDistinct(ToMap(pairs[..|pairs| - 1]), last.0, last.1);
      Put(ToMap(pairs[..|pairs| - 1]), last.0, last.1)
  }

  /** The value paired with `k` by the last pair that has key `k`. */
  function LastValue(pairs: Entries, k: string): Option<int>
  {
    if pairs == [] then None
    else if pairs[|pairs| - 1].0 == k then Some(pairs[|pairs| - 1].1)
    else LastValue(pairs[..|pairs| - 1], k)
  }

  /** After `toMap`, every key holds the value of its last pair. */
  lemma {:induction false} ToMapLastWins(pairs: Entries, k: string)
    ensures Get(ToMap(pairs), k) == LastValue(pairs, k)
  {
    if pairs != [] {
      var last := pairs[|pairs| - 1];
      ToMapLastWins(pairs[..|pairs| - 1], k);
      if last.0 != k {
        PutOther(ToMap(pairs[..|pairs| - 1]), last.0, last.1, k);
      }
    }
  }

  /** Pairs with distinct keys become a map with the same entries in the same order. */
  lemma {:induction false} ToMapDistinct(pairs: Entries)
    requires DistinctKeys(pairs)
    ensures ToMap(pairs) == pairs
  {
    if pairs != [] {
      var n := |pairs| - 1;
      var init, last := pairs[..n], pairs[n];
      DistinctInit(pairs);
      ToMapDistinct(init);
      assert ToMap(pairs) == Put(init, last.0, last.1);
      assert init + [last] == pairs;
    }
  }

  /** Dropping the last pair keeps the keys distinct, and its key is new to the rest. */
  lemma DistinctInit(pairs: Entries)
    requires pairs != [] && DistinctKeys(pairs)
    ensures var n := |pairs| - 1;
            DistinctKeys(pairs[..n]) && Get(pairs[..n], pairs[n].0).None?
  {
    var n := |pairs| - 1;
    var init := pairs[..n];
    forall i, j | 0 <= i < j < n ensures init[i].0 != init[j].0 {
      assert init[i] == pairs[i] && init[j] == pairs[j];
    }
    forall i | 0 <= i < n ensures init[i].0 != pairs[n].0 {
      assert init[i] == pairs[i];
    }
  }
}
