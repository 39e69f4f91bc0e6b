/**
 * The two list shapes the form keeps in state (expense rows and attachment slots) are arrays of
 * records identified by a string `id`. This module holds what both do with them:
 * `filter` out an id, and `map` over the element with an id.
 */
module IdLists {

  /** Every element has its own key. */
  ghost predicate DistinctKeys<T>(xs: seq<T>, key: T -> string) {
    forall i, j :: 0 <= i < j < |xs| ==> key(xs[i]) != key(xs[j])
  }

  /** `xs.filter(x => key(x) !== id)`: the elements whose key is not `id`, in their order. */
  function WithoutId<T>(xs: seq<T>, key: T -> string, id: string): (r: seq<T>)
    ensures |r| <= |xs|
    ensures forall x :: x in r ==> x in xs && key(x) != id
    ensures forall x :: x in xs && key(x) != id ==> x in r
  {
    if xs == [] then []
    else (if key(xs[0]) == id then [] else [xs[0]]) + WithoutId(xs[1..], key, id)
  }

  /** The remove handlers: `if (xs.length > 1) xs = xs.filter(...)`, so a single element stays. */
  function RemoveKeepingOne<T>(xs: seq<T>, key: T -> string, id: string): seq<T> {
    if |xs| > 1 then WithoutId(xs, key, id) else xs
  }

  /** `xs.map(x => key(x) === id ? f(x) : x)`. */
  function ReplaceWhere<T>(xs: seq<T>, key: T -> string, id: string, f: T -> T): seq<T> {
    seq(|xs|, i requires 0 <= i < |xs| => if key(xs[i]) == id then f(xs[i]) else xs[i])
  }

  /** Filtering out an id no element carries changes nothing. */
  lemma {:induction false} WithoutAbsentId<T>(xs: seq<T>, key: T -> string, id: string)
    requires forall i :: 0 <= i < |xs| ==> key(xs[i]) != id
    ensures WithoutId(xs, key, id) == xs
  {
    if xs != [] {
      WithoutAbsentId(xs[1..], key, id);
      assert [xs[0]] + xs[1..] == xs;
    }
  }

  /** With distinct keys, filtering out the key at index k deletes exactly that element. */
  lemma {:induction false} WithoutDistinctId<T>(xs: seq<T>, key: T -> string, k: nat)
    requires DistinctKeys(xs, key) && k < |xs|
    ensures WithoutId(xs, key, key(xs[k])) == xs[..k] + xs[k + 1..]
  {
    var id := key(xs[k]);
    if k == 0 {
      WithoutAbsentId(xs[1..], key, id);
    } else {
      WithoutDistinctId(xs[1..], key, k - 1);
      assert xs[1..][..k - 1] + xs[1..][k..] == xs[1..k] + xs[k + 1..];
      assert [xs[0]] + xs[1..k] == xs[..k];
    }
  }

  lemma DistinctKeysOfDeletion<T>(xs: seq<T>, key: T -> string, k: nat)
    requires DistinctKeys(xs, key) && k < |xs|
    ensures DistinctKeys(xs[..k] + xs[k + 1..], key)
  {
    var ys := xs[..k] + xs[k + 1..];
    forall i, j | 0 <= i < j < |ys| ensures key(ys[i]) != key(ys[j]) {
      var i' := if i < k then i else i + 1;
      var j' := if j < k then j else j + 1;
      assert ys[i] == xs[i'] && ys[j] == xs[j'];
    }
  }

  /**
   * The remove handlers on a list with distinct keys: the list stays non-empty, loses at most the
   * one element with the id, keeps the rest in order, and its keys stay distinct.
   */
  lemma RemoveKeepingOneSpec<T>(xs: seq<T>, key: T -> string, id: string)
    requires DistinctKeys(xs, key) && |xs| >= 1
    ensures var r := RemoveKeepingOne(xs, key, id);
      && |r| >= 1
      && DistinctKeys(r, key)
      && (|xs| == 1 ==> r == xs)
      && ((forall i :: 0 <= i < |xs| ==> key(xs[i]) != id) ==> r == xs)
      && (forall k :: 0 <= k < |xs| && key(xs[k]) == id && |xs| > 1 ==> r == xs[..k] + xs[k + 1..])
  {
    if |xs| > 1 {
      if k :| 0 <= k < |xs| && key(xs[k]) == id {
        WithoutDistinctId(xs, key, k);
        DistinctKeysOfDeletion(xs, key, k);
      } else {
        WithoutAbsentId(xs, key, id);
      }
    }
  }

  /** Appending an element with a fresh key keeps keys distinct. */
  lemma DistinctKeysAppend<T>(xs: seq<T>, key: T -> string, x: T)
    requires DistinctKeys(xs, key)
    requires forall i :: 0 <= i < |xs| ==> key(xs[i]) != key(x)
    ensures DistinctKeys(xs + [x], key)
  {
  }

  /** Mapping with a key-preserving function keeps every key where it was. */
  lemma ReplaceWhereKeys<T>(xs: seq<T>, key: T -> string, id: string, f: T -> T)
    requires forall x :: key(f(x)) == key(x)
    ensures var r := ReplaceWhere(xs, key, id, f);
      |r| == |xs| && forall i :: 0 <= i < |xs| ==> key(r[i]) == key(xs[i])
    ensures DistinctKeys(xs, key) ==> DistinctKeys(ReplaceWhere(xs, key, id, f), key)
  {
  }
}
