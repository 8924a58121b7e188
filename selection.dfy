/** Selecting rows from an ordered enumeration of a table: what `findMany({where})` and `count({where})` see. */
module Selection {
  import opened Tables

  /** The elements of `s` that satisfy `keep`, in their order. */
  function Keep(s: seq<Id>, keep: Id -> bool): (r: seq<Id>)
    ensures |r| <= |s|
    ensures forall x :: x in r <==> x in s && keep(x)
  {
    if s == [] then [] else (if keep(s[0]) then [s[0]] else []) + Keep(s[1..], keep)
  }

  /** Selecting from two enumerations laid end to end selects from the first, then from the second: the kept
      rows stay in the order of the enumeration. */
  lemma {:induction false} KeepAppend(s: seq<Id>, t: seq<Id>, keep: Id -> bool)
    ensures Keep(s + t, keep) == Keep(s, keep) + Keep(t, keep)
  {
    if s == [] {
      assert s + t == t;
    } else {
      assert (s + t)[0] == s[0];
      assert (s + t)[1..] == s[1..] + t;
      KeepAppend(s[1..], t, keep);
    }
  }

  predicate Distinct(s: seq<Id>) {
    forall i, j :: 0 <= i < j < |s| ==> s[i] != s[j]
  }

  /** `s` lists every element of `keys` exactly once. */
  predicate Enumerates(s: seq<Id>, keys: set<Id>) {
    Distinct(s) && (forall x :: x in s ==> x in keys) && (forall x :: x in keys ==> x in s)
  }

  lemma {:induction false} KeepDistinct(s: seq<Id>, keep: Id -> bool)
    requires Distinct(s)
    ensures Distinct(Keep(s, keep))
  {
    if s != [] {
      KeepDistinct(s[1..], keep);
      assert s[0] !in s[1..];
    }
  }

  /** Two conditions that agree on the elements of `s` select the same rows. */
  lemma {:induction false} KeepAgreeing(s: seq<Id>, p: Id -> bool, q: Id -> bool)
    requires forall x :: x in s ==> p(x) == q(x)
    ensures Keep(s, p) == Keep(s, q)
  {
    if s != [] {
      KeepAgreeing(s[1..], p, q);
    }
  }

  /** A sequence without repetitions has as many elements as the set of its elements. */
  lemma {:induction false} DistinctCard(s: seq<Id>)
    requires Distinct(s)
    ensures |set x | x in s| == |s|
  {
    if s != [] {
      DistinctCard(s[1..]);
      assert s[0] !in s[1..];
      assert (set x | x in s) == {s[0]} + (set x | x in s[1..]);
    }
  }

  /** Selecting from an enumeration of `keys` counts exactly the keys that satisfy the condition. */
  lemma CountKept(s: seq<Id>, keys: set<Id>, keep: Id -> bool)
    requires Enumerates(s, keys)
    ensures |Keep(s, keep)| == |set x | x in keys && keep(x)|
  {
    KeepDistinct(s, keep);
    DistinctCard(Keep(s, keep));
    assert (set x | x in Keep(s, keep)) == (set x | x in keys && keep(x));
  }
}
