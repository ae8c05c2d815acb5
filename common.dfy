/** Small helpers shared by the components: an optional value, the
    "first element that matches" search behind JavaScript's `Array.find`,
    and distinctness of the keys of a lookup table. */
module Common {

  datatype Option<T> = None | Some(value: T)

  /** The index of the first element of `s` that satisfies `matches`, or
      None when no element does (what `Array.find` looks for). */
  function FindFirst<T>(s: seq<T>, matches: T -> bool): (r: Option<nat>)
    ensures r.Some? ==> r.value < |s| && matches(s[r.value])
    ensures r.Some? ==> forall j :: 0 <= j < r.value ==> !matches(s[j])
    ensures r.None? <==> forall j :: 0 <= j < |s| ==> !matches(s[j])
  {
    if |s| == 0 then None
    else if matches(s[0]) then Some(0)
    else match FindFirst(s[1..], matches)
      case None => None
      case Some(k) => Some(k + 1)
  }

  /** The `find(...) || table[0]` idiom: the found
      element, or the given fallback when nothing matched. */
  function FindOr<T>(s: seq<T>, matches: T -> bool, fallback: T): (r: T)
    ensures (exists j :: 0 <= j < |s| && matches(s[j])) ==> r in s && matches(r)
    ensures (forall j :: 0 <= j < |s| ==> !matches(s[j])) ==> r == fallback
    ensures FindFirst(s, matches).Some? ==> r == s[FindFirst(s, matches).value]
    ensures forall j :: 0 <= j < |s| && matches(s[j]) && s[j] != r ==>
              exists k :: 0 <= k < j && s[k] == r
  {
    match FindFirst(s, matches)
    case Some(k) => s[k]
    case None => fallback
  }

  /** No two entries of the table share a key. */
  predicate DistinctKeys<T>(s: seq<T>, key: T -> string)
  {
    forall i, j :: 0 <= i < j < |s| ==> key(s[i]) != key(s[j])
  }

  /** With distinct keys, at most one entry carries a given key. */
  lemma AtMostOneWithKey<T>(s: seq<T>, key: T -> string, k: string, i: nat, j: nat)
    requires DistinctKeys(s, key)
    requires i < |s| && j < |s|
    requires key(s[i]) == k && key(s[j]) == k
    ensures i == j
  {
  }
}
