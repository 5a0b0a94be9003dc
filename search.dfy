/** The two searches the handlers perform over lists of keys: a loop that
    stops at the first match (`break`), and a loop without `break` that keeps
    overwriting its variables, so that the last match wins. */
module Search {
  import opened Common

  /** The position of the first occurrence of `k` in `keys`. */
  function FirstIndexOf<K(==)>(keys: seq<K>, k: K): (r: Option<nat>)
    ensures r.Some? ==> r.value < |keys| && keys[r.value] == k
    ensures r.Some? ==> forall j :: 0 <= j < r.value ==> keys[j] != k
    ensures r.None? <==> k !in keys
  {
    if |keys| == 0 then None
    else if keys[0] == k then Some(0)
    else
      match FirstIndexOf(keys[1..], k)
      case None => None
      case Some(i) => Some(i + 1)
  }

  /** The position of the last occurrence of `k` in `keys`. */
  function LastIndexOf<K(==)>(keys: seq<K>, k: K): (r: Option<nat>)
    ensures r.Some? ==> r.value < |keys| && keys[r.value] == k
    ensures r.Some? ==> forall j :: r.value < j < |keys| ==> keys[j] != k
    ensures r.None? <==> k !in keys
  {
    if |keys| == 0 then None
    else if keys[|keys| - 1] == k then Some(|keys| - 1)
    else LastIndexOf(keys[..|keys| - 1], k)
  }

  /** One more step of a no-`break` loop: a new match replaces the old one,
      a non-match keeps it. */
  lemma {:induction false} LastIndexOfSnoc<K>(keys: seq<K>, x: K, k: K)
    ensures LastIndexOf(keys + [x], k) == if x == k then Some(|keys|) else LastIndexOf(keys, k)
  {
    assert (keys + [x])[..|keys|] == keys;
  }

  /** A match with no match before it is the first match. */
  lemma FirstIndexOfAt<K>(keys: seq<K>, i: nat, k: K)
    requires i < |keys| && keys[i] == k && k !in keys[..i]
    ensures FirstIndexOf(keys, k) == Some(i)
  {
    assert forall j :: 0 <= j < i ==> keys[..i][j] == keys[j];
  }
}
