/** The two list updates the pages apply to a list of rows keyed by id:
    `list.filter(x => x.id !== id)` and `list.map(x => x.id === id ? v : x)`. */
module ListOps {

  /** How many rows carry this id. */
  function CountId<T>(xs: seq<T>, key: T -> int, id: int): (n: nat)
    ensures n <= |xs|
    ensures n == 0 <==> forall i :: 0 <= i < |xs| ==> key(xs[i]) != id
  {
    if xs == [] then 0 else (if key(xs[0]) == id then 1 else 0) + CountId(xs[1..], key, id)
  }

  /** Counting works piecewise over concatenation. */
  lemma {:induction false} CountIdAppend<T>(a: seq<T>, b: seq<T>, key: T -> int, id: int)
    ensures CountId(a + b, key, id) == CountId(a, key, id) + CountId(b, key, id)
  {
    if a == [] {
      assert a + b == b;
    } else {
      assert (a + b)[0] == a[0] && (a + b)[1..] == a[1..] + b;
      CountIdAppend(a[1..], b, key, id);
    }
  }

  /** `xs.filter(x => key(x) !== id)`. */
  function RemoveById<T>(xs: seq<T>, key: T -> int, id: int): (r: seq<T>)
    ensures |r| == |xs| - CountId(xs, key, id)
    ensures forall i :: 0 <= i < |r| ==> key(r[i]) != id
    ensures multiset(r) <= multiset(xs)
    ensures forall i :: 0 <= i < |xs| && key(xs[i]) != id ==> xs[i] in r
  {
    if xs == [] then []
    else
      assert xs == [xs[0]] + xs[1..];
      if key(xs[0]) == id then RemoveById(xs[1..], key, id)
      else [xs[0]] + RemoveById(xs[1..], key, id)
  }

  /** Removal works piecewise, so the kept rows stay in their order. */
  lemma {:induction false} RemoveByIdAppend<T>(a: seq<T>, b: seq<T>, key: T -> int, id: int)
    ensures RemoveById(a + b, key, id) == RemoveById(a, key, id) + RemoveById(b, key, id)
  {
    if a == [] {
      assert a + b == b;
    } else {
      assert (a + b)[0] == a[0] && (a + b)[1..] == a[1..] + b;
      RemoveByIdAppend(a[1..], b, key, id);
    }
  }

  /** With no row carrying the id the list is left as it is. */
  lemma {:induction false} RemoveAbsentId<T>(xs: seq<T>, key: T -> int, id: int)
    requires forall i :: 0 <= i < |xs| ==> key(xs[i]) != id
    ensures RemoveById(xs, key, id) == xs
  {
    if xs != [] {
      RemoveAbsentId(xs[1..], key, id);
    }
  }

  /** Removing twice removes nothing more. */
  lemma RemoveByIdIdempotent<T>(xs: seq<T>, key: T -> int, id: int)
    ensures RemoveById(RemoveById(xs, key, id), key, id) == RemoveById(xs, key, id)
  {
    RemoveAbsentId(RemoveById(xs, key, id), key, id);
  }

  /** `xs.map(x => key(x) === id ? v : x)`. */
  function ReplaceById<T>(xs: seq<T>, key: T -> int, id: int, v: T): (r: seq<T>)
    ensures |r| == |xs|
    ensures forall i :: 0 <= i < |xs| ==> r[i] == if key(xs[i]) == id then v else xs[i]
  {
    if xs == [] then []
    else [if key(xs[0]) == id then v else xs[0]] + ReplaceById(xs[1..], key, id, v)
  }

  /** When the replacement keeps its id, the ids of the list are unchanged,
      and a second identical replacement changes nothing. */
  lemma ReplaceByIdKeepsIds<T>(xs: seq<T>, key: T -> int, id: int, v: T)
    requires key(v) == id
    ensures forall i :: 0 <= i < |xs| ==> key(ReplaceById(xs, key, id, v)[i]) == key(xs[i])
    ensures ReplaceById(ReplaceById(xs, key, id, v), key, id, v) == ReplaceById(xs, key, id, v)
  {
  }
}
