/**
 * The collection transforms the store applies to its cached lists, generic in the
 * entity kind: `key` gives an entity's id (`e => e.id`).
 */
module Collections {
  import opened Options

  /** `xs.find(e => key(e) === id)`: the first entry with that id, if any. */
  function FindFirst<T>(xs: seq<T>, key: T -> int, id: int): (r: Option<T>)
    ensures r.None? <==> forall i :: 0 <= i < |xs| ==> key(xs[i]) != id
    ensures r.Some? ==> r.value in xs && key(r.value) == id
    ensures forall k :: 0 <= k < |xs| && key(xs[k]) == id && (forall j :: 0 <= j < k ==> key(xs[j]) != id) ==>
      r == Some(xs[k])
  {
    if xs == [] then None
    else if key(xs[0]) == id then Some(xs[0])
    else
      assert forall k :: 1 <= k < |xs| ==> xs[k] == xs[1..][k - 1];
      FindFirst(xs[1..], key, id)
  }

  /** `id ? xs.find(e => key(e) === id) : undefined`: an id of 0 means "no lookup". */
  function LookupById<T>(xs: seq<T>, key: T -> int, id: int): Option<T>
  {
    if id != 0 then FindFirst(xs, key, id) else None
  }

  /** `xs.map(e => key(e) === key(x) ? x : e)`. */
  function ReplaceById<T>(xs: seq<T>, key: T -> int, x: T): (r: seq<T>)
    ensures |r| == |xs|
    ensures forall i :: 0 <= i < |xs| && key(xs[i]) == key(x) ==> r[i] == x
    ensures forall i :: 0 <= i < |xs| && key(xs[i]) != key(x) ==> r[i] == xs[i]
  {
    if xs == [] then []
    else [if key(xs[0]) == key(x) then x else xs[0]] + ReplaceById(xs[1..], key, x)
  }

  /** `xs.filter(e => key(e) !== id)`. */
  function RemoveById<T>(xs: seq<T>, key: T -> int, id: int): (r: seq<T>)
    ensures |r| <= |xs|
    ensures forall i :: 0 <= i < |r| ==> key(r[i]) != id
    ensures forall i :: 0 <= i < |r| ==> r[i] in xs
    ensures forall i :: 0 <= i < |xs| && key(xs[i]) != id ==> xs[i] in r
  {
    if xs == [] then []
    else (if key(xs[0]) != id then [xs[0]] else []) + RemoveById(xs[1..], key, id)
  }

  /** Filtering distributes over concatenation: the survivors keep their original order. */
  lemma {:induction false} RemoveByIdAppend<T>(a: seq<T>, b: seq<T>, key: T -> int, id: int)
    ensures RemoveById(a + b, key, id) == RemoveById(a, key, id) + RemoveById(b, key, id)
  {
    if a == [] {
      assert a + b == b;
    } else {
      assert (a + b)[1..] == a[1..] + b;
      RemoveByIdAppend(a[1..], b, key, id);
    }
  }

  /** Deleting an id nobody has leaves the list as it was. */
  lemma {:induction false} RemoveAbsentIsIdentity<T>(xs: seq<T>, key: T -> int, id: int)
    requires forall i :: 0 <= i < |xs| ==> key(xs[i]) != id
    ensures RemoveById(xs, key, id) == xs
  {
    if xs != [] {
      RemoveAbsentIsIdentity(xs[1..], key, id);
    }
  }

  /** The list shrinks exactly when some entry carries the id. */
  lemma {:induction false} RemoveShrinksIffPresent<T>(xs: seq<T>, key: T -> int, id: int)
    ensures |RemoveById(xs, key, id)| < |xs| <==> exists i :: 0 <= i < |xs| && key(xs[i]) == id
  {
    if xs != [] {
      RemoveShrinksIffPresent(xs[1..], key, id);
      assert forall i :: 1 <= i < |xs| ==> xs[i] == xs[1..][i - 1];
    }
  }

  /** Replacing by an id nobody has leaves the list as it was. */
  lemma ReplaceAbsentIsIdentity<T>(xs: seq<T>, key: T -> int, x: T)
    requires forall i :: 0 <= i < |xs| ==> key(xs[i]) != key(x)
    ensures ReplaceById(xs, key, x) == xs
  {
  }

  /** Replacing twice with the same entity is the same as replacing once. */
  lemma ReplaceIdempotent<T>(xs: seq<T>, key: T -> int, x: T)
    ensures ReplaceById(ReplaceById(xs, key, x), key, x) == ReplaceById(xs, key, x)
  {
  }

  /** After a replacement, looking up an id that was present finds the replacing entity. */
  lemma LookupAfterReplace<T>(xs: seq<T>, key: T -> int, x: T)
    requires key(x) != 0
    requires exists i :: 0 <= i < |xs| && key(xs[i]) == key(x)
    ensures LookupById(ReplaceById(xs, key, x), key, key(x)) == Some(x)
  {
  }

  /**
   * Appending does not change what an earlier entry answers: ids are not made unique,
   * so the appended entry is found only if no earlier entry has its id.
   */
  lemma {:induction false} LookupAfterAppend<T>(xs: seq<T>, key: T -> int, x: T, id: int)
    ensures LookupById(xs + [x], key, id) ==
      if LookupById(xs, key, id).Some? then LookupById(xs, key, id)
      else if id != 0 && key(x) == id then Some(x)
      else None
  {
    if id != 0 {
      FindFirstAppend(xs, key, x, id);
    }
  }

  lemma {:induction false} FindFirstAppend<T>(xs: seq<T>, key: T -> int, x: T, id: int)
    ensures FindFirst(xs + [x], key, id) ==
      if FindFirst(xs, key, id).Some? then FindFirst(xs, key, id)
      else if key(x) == id then Some(x)
      else None
  {
    if xs != [] {
      assert (xs + [x])[1..] == xs[1..] + [x];
      FindFirstAppend(xs[1..], key, x, id);
    }
  }
}
