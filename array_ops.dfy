/**
 * The two array transforms of the Firestore document store that the bots use
 * on a document's list fields: `ArrayUnion(elements)` and `ArrayRemove(elements)`.
 */
module ArrayOps {

  predicate NoDuplicates(s: seq<string>) {
    forall i, j | 0 <= i < j < |s| :: s[i] != s[j]
  }

  /** `ArrayUnion(b)` applied to the stored list `a`: each element of `b` that is
      not present yet is appended, in the order of `b`; nothing already stored
      moves or disappears. */
  function ArrayUnion(a: seq<string>, b: seq<string>): seq<string>
    decreases |b|
  {
    if |b| == 0 then a
    else ArrayUnion(if b[0] in a then a else a + [b[0]], b[1..])
  }

  /** `ArrayRemove(b)` applied to the stored list `a`: every occurrence of every
      element of `b` is removed; the rest keep their order. */
  function ArrayRemove(a: seq<string>, b: seq<string>): seq<string>
    decreases |a|
  {
    if |a| == 0 then []
    else (if a[0] in b then [] else [a[0]]) + ArrayRemove(a[1..], b)
  }

  /** The union holds exactly the stored and the given elements. */
  lemma {:induction false} ArrayUnionMembers(a: seq<string>, b: seq<string>, x: string)
    ensures x in ArrayUnion(a, b) <==> x in a || x in b
    decreases |b|
  {
    if |b| > 0 {
      var a' := if b[0] in a then a else a + [b[0]];
      ArrayUnionMembers(a', b[1..], x);
      assert b == [b[0]] + b[1..];
    }
  }

  /** The stored list is kept, in place, at the front of the union. */
  lemma {:induction false} ArrayUnionKeepsPrefix(a: seq<string>, b: seq<string>)
    ensures |a| <= |ArrayUnion(a, b)| && ArrayUnion(a, b)[..|a|] == a
    decreases |b|
  {
    if |b| > 0 {
      var a' := if b[0] in a then a else a + [b[0]];
      ArrayUnionKeepsPrefix(a', b[1..]);
      assert a'[..|a|] == a;
    }
  }

  /** A list without duplicates stays without duplicates. */
  lemma {:induction false} ArrayUnionNoDuplicates(a: seq<string>, b: seq<string>)
    requires NoDuplicates(a)
    ensures NoDuplicates(ArrayUnion(a, b))
    decreases |b|
  {
    if |b| > 0 {
      var a' := if b[0] in a then a else a + [b[0]];
      assert NoDuplicates(a');
      ArrayUnionNoDuplicates(a', b[1..]);
    }
  }

  /** Adding only elements already present changes nothing. */
  lemma {:induction false} ArrayUnionPresent(a: seq<string>, b: seq<string>)
    requires forall x | x in b :: x in a
    ensures ArrayUnion(a, b) == a
    decreases |b|
  {
    if |b| > 0 {
      ArrayUnionPresent(a, b[1..]);
    }
  }

  /** Repeating the same union leaves the list unchanged. */
  lemma ArrayUnionIdempotent(a: seq<string>, b: seq<string>)
    ensures ArrayUnion(ArrayUnion(a, b), b) == ArrayUnion(a, b)
  {
    forall x | x in b
      ensures x in ArrayUnion(a, b)
    {
      ArrayUnionMembers(a, b, x);
    }
    ArrayUnionPresent(ArrayUnion(a, b), b);
  }

  /** The remaining list holds exactly the stored elements that were not removed. */
  lemma {:induction false} ArrayRemoveMembers(a: seq<string>, b: seq<string>, x: string)
    ensures x in ArrayRemove(a, b) <==> x in a && x !in b
    decreases |a|
  {
    if |a| > 0 {
      ArrayRemoveMembers(a[1..], b, x);
      assert a == [a[0]] + a[1..];
    }
  }

  /** Removing elements that are not stored changes nothing. */
  lemma {:induction false} ArrayRemoveAbsent(a: seq<string>, b: seq<string>)
    requires forall x | x in a :: x !in b
    ensures ArrayRemove(a, b) == a
    decreases |a|
  {
    if |a| > 0 {
      ArrayRemoveAbsent(a[1..], b);
      assert a == [a[0]] + a[1..];
    }
  }

  lemma {:induction false} ArrayRemoveAppend(a: seq<string>, c: seq<string>, b: seq<string>)
    ensures ArrayRemove(a + c, b) == ArrayRemove(a, b) + ArrayRemove(c, b)
    decreases |a|
  {
    if |a| > 0 {
      assert (a + c)[1..] == a[1..] + c;
      ArrayRemoveAppend(a[1..], c, b);
    } else {
      assert a + c == c;
    }
  }

  /** Removing a superset of what was added undoes the addition. */
  lemma {:induction false} ArrayRemoveUnion(a: seq<string>, b: seq<string>, rm: seq<string>)
    requires forall x | x in b :: x in rm
    ensures ArrayRemove(ArrayUnion(a, b), rm) == ArrayRemove(a, rm)
    decreases |b|
  {
    if |b| > 0 {
      if b[0] in a {
        ArrayRemoveUnion(a, b[1..], rm);
      } else {
        ArrayRemoveUnion(a + [b[0]], b[1..], rm);
        ArrayRemoveAppend(a, [b[0]], rm);
      }
    }
  }

  /** Adding elements none of which were stored and then removing them again
      restores the stored list exactly. */
  lemma RemoveAfterFreshUnion(a: seq<string>, b: seq<string>)
    requires forall x | x in b :: x !in a
    ensures ArrayRemove(ArrayUnion(a, b), b) == a
  {
    ArrayRemoveUnion(a, b, b);
    ArrayRemoveAbsent(a, b);
  }
}
