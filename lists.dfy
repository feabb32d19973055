/**
 * Removal by id from a list of records, `xs.filter((x) => x.id !== id)`, shared
 * by the contact lists and the safe-station list. The record's id is read through
 * the `idOf` selector.
 */
module Lists {

  /** The records whose id differs from `id`, in their original order. */
  function WithoutId<T>(xs: seq<T>, idOf: T -> string, id: string): (r: seq<T>)
    ensures |r| <= |xs|
    ensures forall i :: 0 <= i < |r| ==> idOf(r[i]) != id
  {
    if xs == [] then []
    else WithoutId(xs[..|xs| - 1], idOf, id) + (if idOf(xs[|xs| - 1]) != id then [xs[|xs| - 1]] else [])
  }

  /** Exactly the records with another id survive. */
  lemma {:induction false} WithoutIdMembership<T>(xs: seq<T>, idOf: T -> string, id: string)
    ensures forall x :: x in WithoutId(xs, idOf, id) <==> x in xs && idOf(x) != id
    decreases |xs|
  {
    if xs != [] {
      var init := xs[..|xs| - 1];
      WithoutIdMembership(init, idOf, id);
      assert xs == init + [xs[|xs| - 1]];
    }
  }

  /** Removal keeps the survivors in their order: it works piece by piece. */
  lemma {:induction false} WithoutIdKeepsOrder<T>(a: seq<T>, b: seq<T>, idOf: T -> string, id: string)
    ensures WithoutId(a + b, idOf, id) == WithoutId(a, idOf, id) + WithoutId(b, idOf, id)
    decreases |b|
  {
    if b == [] {
      assert a + b == a;
    } else {
      var ab := a + b;
      assert ab[..|ab| - 1] == a + b[..|b| - 1];
      assert ab[|ab| - 1] == b[|b| - 1];
      WithoutIdKeepsOrder(a, b[..|b| - 1], idOf, id);
    }
  }

  /** Removing an id that no record has changes nothing. */
  lemma {:induction false} WithoutAbsentId<T>(xs: seq<T>, idOf: T -> string, id: string)
    requires forall i :: 0 <= i < |xs| ==> idOf(xs[i]) != id
    ensures WithoutId(xs, idOf, id) == xs
    decreases |xs|
  {
    if xs != [] {
      WithoutAbsentId(xs[..|xs| - 1], idOf, id);
    }
  }
}
