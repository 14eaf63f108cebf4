/**
 * The two list updaters every screen passes to its state setter: remove the
 * records with a given id (`list.filter(x => x.id !== id)`) and rewrite the
 * records with a given id (`list.map(x => x.id === id ? f(x) : x)`).
 * `idOf` projects a record to its id.
 */
module Records {

  /** `s.filter(x => idOf(x) !== id)`. */
  function Without<T(==, !new)>(s: seq<T>, idOf: T -> string, id: string): (r: seq<T>)
    ensures |r| <= |s|
    ensures forall x :: x in r <==> x in s && idOf(x) != id
  {
    if s == [] then []
    else if idOf(s[0]) == id then Without(s[1..], idOf, id)
    else [s[0]] + Without(s[1..], idOf, id)
  }

  /** `s.map(x => idOf(x) === id ? f(x) : x)`. */
  function UpdateWhere<T>(s: seq<T>, idOf: T -> string, id: string, f: T -> T): (r: seq<T>)
    ensures |r| == |s|
    ensures forall i :: 0 <= i < |s| ==> r[i] == if idOf(s[i]) == id then f(s[i]) else s[i]
  {
    if s == [] then []
    else [if idOf(s[0]) == id then f(s[0]) else s[0]] + UpdateWhere(s[1..], idOf, id, f)
  }

  /** Filtering distributes over concatenation: the records that survive keep
      their relative order. */
  lemma {:induction false} WithoutAppend<T(!new)>(a: seq<T>, b: seq<T>, idOf: T -> string, id: string)
    ensures Without(a + b, idOf, id) == Without(a, idOf, id) + Without(b, idOf, id)
  {
    if a == [] {
      assert a + b == b;
    } else {
      assert (a + b)[1..] == a[1..] + b;
      WithoutAppend(a[1..], b, idOf, id);
    }
  }

  /** Removing an id that no record carries leaves the list as it was. */
  lemma {:induction false} WithoutAbsent<T(!new)>(s: seq<T>, idOf: T -> string, id: string)
    requires forall i :: 0 <= i < |s| ==> idOf(s[i]) != id
    ensures Without(s, idOf, id) == s
  {
    if s != [] {
      WithoutAbsent(s[1..], idOf, id);
    }
  }

  /** Removing an id that some record carries makes the list strictly shorter. */
  lemma {:induction false} WithoutPresentShrinks<T(!new)>(s: seq<T>, idOf: T -> string, id: string, k: nat)
    requires k < |s| && idOf(s[k]) == id
    ensures |Without(s, idOf, id)| < |s|
  {
    if k > 0 {
      WithoutPresentShrinks(s[1..], idOf, id, k - 1);
    }
  }

  /** Filtering twice by the same id is filtering once. */
  lemma WithoutIdempotent<T(!new)>(s: seq<T>, idOf: T -> string, id: string)
    ensures Without(Without(s, idOf, id), idOf, id) == Without(s, idOf, id)
  {
    var r := Without(s, idOf, id);
    forall i | 0 <= i < |r| ensures idOf(r[i]) != id {
      assert r[i] in r;
    }
    WithoutAbsent(r, idOf, id);
  }
}
